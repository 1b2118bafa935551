/** Warehouse leases: what the futures controller rents on top of the company's own
    lease, and how it gives exactly that back. The legacy Amsterdam cohort is not
    part of this model. */
module FuturesLease {
  import opened Options
  import opened Pence
  import opened Runs

  datatype Side = Bid | Ask

  datatype Status = Intent | Live | Settled | Defaulted | Cancelled | Rejected

  /** A futures intent; `receipt` says that its settlement is known. */
  datatype Row = Row(port: string, side: Side, status: Status, lot: nat, receipt: bool)

  datatype Warehouse = Warehouse(leased: nat, used: nat, locked: nat, free: nat)

  datatype Holding = Holding(baseline: int, target: int)

  /** `admitted` is the lease an admission reserved; a release has none. */
  datatype Change = Change(port: string, before: int, target: int, baseline: int, admitted: Option<int>)

  datatype Sending = Detached | Unsent | Sent

  predicate Terminal(status: Status) {
    status.Settled? || status.Defaulted? || status.Cancelled? || status.Rejected?
  }

  /** A bid whose goods may still arrive. */
  predicate Outstanding(row: Row, port: string) {
    && row.port == port && row.side.Bid?
    && !row.status.Cancelled? && !row.status.Rejected?
    && (!Terminal(row.status) || !row.receipt)
  }

  function Receiving(rows: seq<Row>, port: string): nat {
    if rows == [] then 0
    else
      var last := rows[|rows| - 1];
      Receiving(rows[..|rows| - 1], port) + if Outstanding(last, port) then last.lot else 0
  }

  lemma {:induction false} ReceivingCovers(rows: seq<Row>, port: string, i: nat)
    requires i < |rows| && Outstanding(rows[i], port)
    ensures rows[i].lot <= Receiving(rows, port)
    decreases |rows|
  {
    if i < |rows| - 1 {
      ReceivingCovers(rows[..|rows| - 1], port, i);
    }
  }

  lemma {:induction false} NothingReceiving(rows: seq<Row>, port: string)
    requires forall row <- rows :: !Outstanding(row, port)
    ensures Receiving(rows, port) == 0
    decreases |rows|
  {
    if rows != [] {
      NothingReceiving(rows[..|rows| - 1], port);
    }
  }

  /** `ports` and `landed` are the server's, `rows`, `leases`, `change` and `sending`
      are durable, and `external` records what others leased. */
  datatype World = World(
    ports: map<string, Warehouse>,
    rows: seq<Row>,
    leases: map<string, Holding>,
    change: Option<Change>,
    sending: Sending,
    landed: bool,
    external: map<string, int>)

  const Start := World(map[], [], map[], None, Detached, false, map[])

  datatype Step =
    | Grow(port: string, admitted: int)
    | Release(port: string)
    | Attach
    // The port's free tons, and whether an admission and its rent are still covered.
    | Send(available: int, covered: bool)
    | Land
    | Confirm
    | Reconcile
    | Refuse
    | Unsend
    | Clear
    | Rent(port: string, tons: nat)
    | Stock(port: string, used: nat, locked: nat, free: nat)
    | Record(rows: seq<Row>)

  function At(w: World, port: string): Warehouse {
    if port in w.ports then w.ports[port] else Warehouse(0, 0, 0, 0)
  }

  function External(w: World, port: string): int { if port in w.external then w.external[port] else 0 }

  function Occupied(warehouse: Warehouse): int {
    Max(warehouse.used + warehouse.locked, warehouse.leased - warehouse.free)
  }

  function Needed(w: World, port: string): int { Occupied(At(w, port)) + Receiving(w.rows, port) }

  /** What was leased before us, with every increase seen since. */
  function Baseline(w: World, port: string): int {
    if port in w.leases then w.leases[port].baseline + Max(0, At(w, port).leased - w.leases[port].target)
    else At(w, port).leased
  }

  /** The least lease a port must keep, as far as it does not depend on a pending change. */
  function Floor(w: World, port: string): int {
    var baseline := if port in w.leases then Baseline(w, port) else 0;
    Max(baseline, At(w, port).used + At(w, port).locked + Receiving(w.rows, port))
  }

  /** While a change is pending at the port, its target counts as well. */
  function FloorPending(w: World, port: string, change: Option<Change>): int {
    if change.Some? && change.value.port == port then Max(Floor(w, port), change.value.target) else Floor(w, port)
  }

  predicate PreflightPasses(w: World, change: Change, available: int, covered: bool) {
    && At(w, change.port).leased == change.before
    && if change.target < change.before then
         Floor(w, change.port) <= change.target && change.baseline <= change.target
       else
         && change.admitted.Some? && covered
         && change.target - change.before <= available
         && Needed(w, change.port) == change.target
         && change.target <= change.admitted.value
  }

  predicate Enabled(w: World, step: Step) {
    match step
    case Grow(port, admitted) =>
      && w.change.None? && w.sending.Detached?
      && At(w, port).leased < Needed(w, port) <= admitted
    case Release(port) =>
      && w.change.None? && w.sending.Detached?
      && port in w.leases
      && FloorPending(w, port, w.change) < At(w, port).leased
    case Attach => w.change.Some? && w.sending.Detached?
    case Send(available, covered) =>
      w.change.Some? && w.sending.Unsent? && PreflightPasses(w, w.change.value, available, covered)
    case Land => w.change.Some? && w.sending.Sent? && !w.landed
    case Confirm => w.change.Some? && w.sending.Sent? && w.landed
    case Reconcile =>
      w.change.Some? && w.sending.Sent? && At(w, w.change.value.port).leased == w.change.value.target
    case Refuse => w.change.Some? && w.sending.Sent? && !w.landed
    case Unsend => w.sending.Unsent?
    case Clear => w.change.Some? && w.sending.Detached?
    case Rent(port, tons) => true
    case Stock(port, used, locked, free) => true
    case Record(rows) => true
  }

  function Finished(w: World): World
    requires w.change.Some?
  {
    var c := w.change.value;
    w.(leases := if c.target == c.baseline then w.leases - {c.port}
                 else w.leases[c.port := Holding(c.baseline, c.target)],
       change := None, sending := Detached, landed := false)
  }

  function Apply(w: World, step: Step): World
    requires Enabled(w, step)
  {
    match step
    case Grow(port, admitted) =>
      w.(change := Some(Change(port, At(w, port).leased, Needed(w, port), Baseline(w, port), Some(admitted))))
    case Release(port) =>
      w.(change := Some(Change(port, At(w, port).leased, FloorPending(w, port, w.change), Baseline(w, port), None)))
    case Attach => w.(sending := Unsent)
    case Send(_, _) => w.(sending := Sent)
    case Land =>
      var c := w.change.value;
      var target: nat := Max(0, c.target);
      w.(ports := w.ports[c.port := At(w, c.port).(leased := target)], landed := true)
    case Confirm => Finished(w)
    case Reconcile => Finished(w)
    case Refuse => w.(change := None, sending := Detached)
    case Unsend => w.(sending := Detached)
    case Clear => w.(change := None)
    case Rent(port, tons) =>
      var house := At(w, port);
      w.(ports := w.ports[port := house.(leased := house.leased + tons)],
         external := w.external[port := External(w, port) + tons])
    case Stock(port, used, locked, free) =>
      w.(ports := w.ports[port := Warehouse(At(w, port).leased, used, locked, free)])
    case Record(rows) => w.(rows := rows)
  }

  // ----------------------------------------------------------------- accounting

  predicate Landed(w: World, port: string) { w.landed && w.change.Some? && w.change.value.port == port }

  /** What the durable record says the others' lease is. */
  function Recorded(w: World, port: string): int {
    var leased := At(w, port).leased;
    if Landed(w, port) then w.change.value.baseline + (leased - w.change.value.target)
    else if port in w.leases then w.leases[port].baseline + (leased - w.leases[port].target)
    else leased
  }

  ghost predicate Accounted(w: World) { forall port: string :: Recorded(w, port) == External(w, port) }

  predicate HoldingSound(w: World, port: string) {
    port in w.leases ==>
      && 0 <= w.leases[port].baseline < w.leases[port].target
      && (!Landed(w, port) ==> w.leases[port].target <= At(w, port).leased)
  }

  predicate ChangeSound(w: World) {
    && (w.change.None? ==> w.sending.Detached?)
    && (w.landed ==> w.change.Some? && w.sending.Sent?)
    && (w.change.Some? ==>
          var c := w.change.value;
          && 0 <= c.baseline <= c.target && c.baseline <= c.before && c.target != c.before
          && (w.landed ==> c.target <= At(w, c.port).leased)
          && (!w.landed ==>
                c.before <= At(w, c.port).leased
                && At(w, c.port).leased - c.before == External(w, c.port) - c.baseline))
  }

  ghost predicate Inv(w: World) {
    && Accounted(w) && ChangeSound(w)
    && (forall port <- w.leases :: HoldingSound(w, port))
    && (forall port <- w.external :: 0 <= w.external[port])
  }

  /** The request must reach the server before anyone else leases more there, and a
      warehouse that merely shows the target is no proof that it did. */
  predicate Guarded(w: World, step: Step) {
    match step
    case Land => w.change.Some? ==> At(w, w.change.value.port).leased == w.change.value.before
    case Reconcile => w.landed
    case _ => true
  }

  lemma BaselineIsExternal(w: World, port: string)
    requires Inv(w) && w.change.None?
    ensures Baseline(w, port) == External(w, port) && 0 <= External(w, port) <= At(w, port).leased
  {
    assert Recorded(w, port) == External(w, port);
  }

  lemma StageKeepsInv(w: World, step: Step)
    requires Inv(w) && Enabled(w, step) && (step.Grow? || step.Release?)
    ensures Inv(Apply(w, step))
  {
    BaselineIsExternal(w, step.port);
    var v := Apply(w, step);
    forall port: string ensures Recorded(v, port) == External(v, port) {
      assert Recorded(w, port) == External(w, port);
    }
  }

  lemma LandKeepsInv(w: World)
    requires Inv(w) && Enabled(w, Land) && Guarded(w, Land)
    ensures Inv(Apply(w, Land))
  {
    var v := Apply(w, Land);
    forall port: string ensures Recorded(v, port) == External(v, port) {
      assert Recorded(w, port) == External(w, port);
    }
  }

  lemma FinishKeepsInv(w: World)
    requires Inv(w) && w.landed
    ensures Inv(Finished(w))
  {
    var v := Finished(w);
    forall port: string ensures Recorded(v, port) == External(v, port) {
      assert Recorded(w, port) == External(w, port);
    }
  }

  lemma RentRecorded(w: World, port: string, tons: nat, other: string)
    requires Recorded(w, other) == External(w, other)
    ensures Recorded(Apply(w, Rent(port, tons)), other) == External(Apply(w, Rent(port, tons)), other)
  {
  }

  lemma RentKeepsInv(w: World, port: string, tons: nat)
    requires Inv(w)
    ensures Inv(Apply(w, Rent(port, tons)))
  {
    forall other: string
      ensures Recorded(Apply(w, Rent(port, tons)), other) == External(Apply(w, Rent(port, tons)), other)
    {
      RentRecorded(w, port, tons, other);
    }
  }

  lemma OtherKeepsInv(w: World, step: Step)
    requires Inv(w) && Enabled(w, step)
    requires !step.Grow? && !step.Release? && !step.Land? && !step.Confirm? && !step.Reconcile? && !step.Rent?
    ensures Inv(Apply(w, step))
  {
    var v := Apply(w, step);
    forall port: string ensures Recorded(v, port) == External(v, port) {
      assert Recorded(w, port) == External(w, port);
    }
  }

  lemma StepKeepsInv(w: World, step: Step)
    requires Inv(w) && Enabled(w, step) && Guarded(w, step)
    ensures Inv(Apply(w, step))
  {
    match step
    case Grow(_, _) => StageKeepsInv(w, step);
    case Release(_) => StageKeepsInv(w, step);
    case Land => LandKeepsInv(w);
    case Confirm => FinishKeepsInv(w);
    case Reconcile => FinishKeepsInv(w);
    case Rent(port, tons) => RentKeepsInv(w, port, tons);
    case _ => OtherKeepsInv(w, step);
  }

  /** The recorded baselines stay exact precisely as long as each step is guarded. */
  lemma AccountedExactly(w: World, step: Step)
    requires Inv(w) && Enabled(w, step)
    ensures Accounted(Apply(w, step)) <==> Guarded(w, step)
  {
    if Guarded(w, step) {
      StepKeepsInv(w, step);
    } else {
      var port := w.change.value.port;
      assert Recorded(Apply(w, step), port) != External(Apply(w, step), port);
    }
  }

  // ----------------------------------------------------------------- theorems

  ghost predicate Legal(w: World, steps: seq<Step>)
    decreases |steps|
  {
    steps == [] || (Enabled(w, steps[0]) && Legal(Apply(w, steps[0]), steps[1..]))
  }

  ghost function After(w: World, steps: seq<Step>): World
    requires Legal(w, steps)
    decreases |steps|
  {
    if steps == [] then w else After(Apply(w, steps[0]), steps[1..])
  }

  ghost predicate Next(w: World, step: Step, v: World) { Enabled(w, step) && v == Apply(w, step) }

  ghost predicate Ran(steps: seq<Step>, worlds: seq<World>, w: World) {
    Passes(Start, Next, steps, worlds) && Last(worlds) == w
  }

  lemma RunsOn(steps: seq<Step>, worlds: seq<World>, w: World, step: Step)
    requires Ran(steps, worlds, w) && Enabled(w, step)
    ensures Ran(steps + [step], worlds + [Apply(w, step)], Apply(w, step))
  {
    PassesOn(Start, Next, steps, worlds, step, Apply(w, step));
  }

  lemma {:induction false} RanFrom(steps: seq<Step>, worlds: seq<World>, n: nat)
    requires Passes(Start, Next, steps, worlds) && n <= |steps|
    ensures Legal(worlds[n], steps[n..]) && After(worlds[n], steps[n..]) == Last(worlds)
    decreases |steps| - n
  {
    if n < |steps| {
      RanFrom(steps, worlds, n + 1);
      assert steps[n..][0] == Runs.At(steps, n) && steps[n..][1..] == steps[n + 1..];
    }
  }

  lemma RanLegal(steps: seq<Step>, worlds: seq<World>, w: World)
    requires Ran(steps, worlds, w)
    ensures Legal(Start, steps) && After(Start, steps) == w
  {
    RanFrom(steps, worlds, 0);
    assert steps[0..] == steps;
  }

  ghost predicate GuardedRun(w: World, steps: seq<Step>)
    requires Legal(w, steps)
    decreases |steps|
  {
    steps == [] || (Guarded(w, steps[0]) && GuardedRun(Apply(w, steps[0]), steps[1..]))
  }

  lemma {:induction false} RunKeepsInv(w: World, steps: seq<Step>)
    requires Inv(w) && Legal(w, steps) && GuardedRun(w, steps)
    ensures Inv(After(w, steps))
    decreases |steps|
  {
    if steps != [] {
      StepKeepsInv(w, steps[0]);
      RunKeepsInv(Apply(w, steps[0]), steps[1..]);
    }
  }

  /** Through any guarded sequence of resizes and releases, the baseline of a port is
      what others leased there: the first lease and every later increase. */
  lemma BaselineExact(steps: seq<Step>, port: string)
    requires Legal(Start, steps) && GuardedRun(Start, steps)
    ensures Recorded(After(Start, steps), port) == External(After(Start, steps), port)
    ensures After(Start, steps).change.None? ==>
              Baseline(After(Start, steps), port) == External(After(Start, steps), port)
    ensures port in After(Start, steps).leases && After(Start, steps).change.None? ==>
              External(After(Start, steps), port) < At(After(Start, steps), port).leased
  {
    var v := After(Start, steps);
    assert Inv(Start);
    RunKeepsInv(Start, steps);
    assert Recorded(v, port) == External(v, port);
    if v.change.None? {
      BaselineIsExternal(v, port);
    }
  }

  /** A release that passes its preflight leaves room for the others' lease, for the
      stock, locked goods and all incoming lots, and for each lot on its own. */
  lemma ReleaseSafe(w: World, available: int, covered: bool, i: nat)
    requires Inv(w) && Enabled(w, Send(available, covered)) && w.change.value.target < w.change.value.before
    ensures var c := w.change.value;
            && External(w, c.port) <= c.target
            && At(w, c.port).used + At(w, c.port).locked + Receiving(w.rows, c.port) <= c.target
            && (i < |w.rows| && Outstanding(w.rows[i], c.port) ==> w.rows[i].lot <= c.target)
  {
    var port := w.change.value.port;
    assert Recorded(w, port) == External(w, port);
    if i < |w.rows| && Outstanding(w.rows[i], port) {
      ReceivingCovers(w.rows, port, i);
    }
  }

  /** Once a growth that passed its preflight has landed, the warehouse holds the stock,
      the locked goods and all incoming lots at once, and so each lot; not a ton less
      would do; and the others' lease is still what the record says. */
  lemma GrowthFits(w: World, available: int, covered: bool, i: nat)
    requires Inv(w) && Enabled(w, Send(available, covered)) && w.change.value.before < w.change.value.target
    ensures Enabled(Apply(w, Send(available, covered)), Land)
    ensures
      var v, c := Apply(Apply(w, Send(available, covered)), Land), w.change.value;
      var house := At(v, c.port);
      && house.used + house.locked + Receiving(v.rows, c.port) <= house.leased
      && (i < |v.rows| && Outstanding(v.rows[i], c.port) ==> house.used + house.locked + v.rows[i].lot <= house.leased)
      && house.leased - Receiving(v.rows, c.port) == Occupied(At(w, c.port))
      && At(w, c.port).leased < house.leased <= At(w, c.port).leased + available
      && Recorded(v, c.port) == External(v, c.port) == External(w, c.port)
  {
    var v, c := Apply(w, Send(available, covered)), w.change.value;
    OtherKeepsInv(w, Send(available, covered));
    LandKeepsInv(v);
    assert Recorded(Apply(v, Land), c.port) == External(Apply(v, Land), c.port);
    if i < |v.rows| && Outstanding(v.rows[i], c.port) {
      ReceivingCovers(v.rows, c.port, i);
    }
  }

  // The lease is sent, arrives and is recorded.
  lemma ReleaseEnds(w: World, leases: map<string, Holding>)
    requires w.change.Some? && w.sending.Unsent? && PreflightPasses(w, w.change.value, 0, true) && !w.landed
    requires w.change.value.target == w.change.value.baseline && 0 <= w.change.value.target
    requires leases == w.leases - {w.change.value.port}
    ensures var steps, port := [Send(0, true), Land, Confirm], w.change.value.port;
            && Legal(w, steps)
            && At(After(w, steps), port).leased == w.change.value.target
            && After(w, steps).leases == leases && After(w, steps).external == w.external
  {
    var c := Apply(w, Send(0, true));
    var d := Apply(c, Land);
    var e := Apply(d, Confirm);
    var steps := [Send(0, true), Land, Confirm];
    assert steps[1..] == [Land, Confirm] && steps[1..][1..] == [Confirm];
    assert Legal(d, [Confirm]) && After(d, [Confirm]) == e by { assert [Confirm][1..] == []; }
    assert Legal(c, [Land, Confirm]) && After(c, [Land, Confirm]) == e;
  }

  /** With the stock and the obligations gone, one release returns exactly the others'
      lease and drops the holding. */
  lemma ReleaseReturns(w: World, port: string)
    requires Inv(w) && w.change.None? && port in w.leases
    requires At(w, port).used + At(w, port).locked + Receiving(w.rows, port) <= External(w, port)
    ensures var steps := [Release(port), Attach] + [Send(0, true), Land, Confirm];
            && Legal(w, steps)
            && At(After(w, steps), port).leased == External(w, port)
            && After(w, steps).leases == w.leases - {port}
            && After(w, steps).external == w.external
  {
    BaselineIsExternal(w, port);
    assert HoldingSound(w, port);
    var a := Apply(w, Release(port));
    var b := Apply(a, Attach);
    assert Floor(b, port) == External(w, port);
    ReleaseEnds(b, w.leases - {port});
    var rest := [Send(0, true), Land, Confirm];
    var steps := [Release(port), Attach] + rest;
    assert steps[1..] == [Attach] + rest && ([Attach] + rest)[1..] == rest;
    assert Legal(a, [Attach] + rest) && After(a, [Attach] + rest) == After(b, rest);
  }

  /** A lost growth request and an unrelated lease of the same size look alike: the
      recovery then counts the others' lease as ours. */
  lemma MistakenRecovery() returns (steps: seq<Step>)
    ensures Legal(Start, steps)
    ensures Recorded(After(Start, steps), "p") == 0 && External(After(Start, steps), "p") == 5
  {
    var rows := [Row("p", Bid, Intent, 5, false)];
    assert rows[..0] == [] && Receiving([], "p") == 0 && Receiving(rows, "p") == 5;
    var a := Apply(Start, Record(rows));
    var b := Apply(a, Grow("p", 5));
    assert b.change == Some(Change("p", 0, 5, 0, Some(5)));
    var c := Apply(b, Attach);
    assert Enabled(c, Send(5, true));
    var d := Apply(c, Send(5, true));
    steps := LostAndRented(d);
    steps := Cons(c, Send(5, true), steps);
    steps := Cons(b, Attach, steps);
    steps := Cons(a, Grow("p", 5), steps);
    steps := Cons(Start, Record(rows), steps);
  }

  lemma LostAndRented(w: World) returns (steps: seq<Step>)
    requires w.change == Some(Change("p", 0, 5, 0, Some(5))) && w.sending.Sent?
    requires At(w, "p").leased == 0 && External(w, "p") == 0
    ensures Legal(w, steps) && Recorded(After(w, steps), "p") == 0 && External(After(w, steps), "p") == 5
  {
    var v := Apply(w, Rent("p", 5));
    assert At(v, "p").leased == 5 && Enabled(v, Reconcile);
    var end := Apply(v, Reconcile);
    assert end.leases["p"] == Holding(0, 5) && At(end, "p").leased == 5 && External(end, "p") == 5;
    steps := Cons(v, Reconcile, []);
    steps := Cons(w, Rent("p", 5), steps);
  }

  lemma Cons(w: World, step: Step, rest: seq<Step>) returns (steps: seq<Step>)
    requires Enabled(w, step) && Legal(Apply(w, step), rest)
    ensures Legal(w, steps) && After(w, steps) == After(Apply(w, step), rest)
  {
    steps := [step] + rest;
    assert steps[1..] == rest;
  }
}
