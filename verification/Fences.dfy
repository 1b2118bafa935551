/** What the capture fences of a staged action are worth: exactly when it passes them,
    within one process and after a restart, and what that says of a first send. */
module Fences {
  import opened Options
  import opened Runs
  import opened Upstream
  import opened Journal

  /** The step writes another action, or none, into the ship's mission. */
  predicate Rewrites(step: Step, ship: string) { LetsGo(step, ship) || (step.Rebind? && step.ship == ship) }

  /** The step fixes the fences of an action of the ship. */
  predicate Fixes(step: Step, ship: string) { (step.Stage? || step.Rebind?) && step.ship == ship }

  lemma ActionKept(w: World, step: Step, ship: string)
    requires Enabled(w, step) && Attached(w, ship) && !Rewrites(step, ship)
    ensures Attached(Apply(w, step), ship) && Current(Apply(w, step), ship) == Current(w, ship)
  {
    if Touched(w, step) != Some(ship) {
      OtherMissionsKept(w, step, ship);
    }
  }

  lemma ActionWas(w: World, step: Step, ship: string)
    requires Enabled(w, step) && Attached(Apply(w, step), ship) && !Fixes(step, ship)
    ensures Attached(w, ship) && Current(w, ship) == Current(Apply(w, step), ship)
  {
    if Touched(w, step) != Some(ship) {
      OtherMissionsKept(w, step, ship);
    }
  }

  /** Nothing is handled before it is received. */
  predicate Ordered(w: World) {
    w.captured.financial <= w.published.financial && w.captured.control <= w.published.control
  }

  /** While their process lives, the fences of an action lie behind the world's. */
  predicate Behind(w: World, action: Action) {
    && Ordered(w)
    && action.session <= w.session
    && (action.session == w.session ==>
          action.epochs.financial <= w.captured.financial && action.epochs.control <= w.captured.control)
  }

  /** Both fences fall with an event of their kind, and with the process. */
  lemma FencesAfter(w: World, step: Step, action: Action)
    requires Enabled(w, step) && Behind(w, action)
    ensures
      var v := Apply(w, step);
      && Behind(v, action)
      && (v.session == action.session <==> w.session == action.session && !step.Crash?)
      && (FundsValid(v, action) <==> FundsValid(w, action) && !step.Crash? && step != Publish(false))
      && (v.session == action.session ==>
            (ControlValid(v, action) <==> ControlValid(w, action) && step != Publish(true)))
  {
  }

  lemma FixedFences(w: World, step: Step, ship: string)
    requires Enabled(w, step) && Fixes(step, ship)
    ensures Attached(Apply(w, step), ship)
    ensures
      var v := Apply(w, step);
      var action := Current(v, ship);
      && action.session == v.session && action.epochs == w.captured
      && v.captured == w.captured && v.published == w.published
      && (step.Stage? ==> w.captured == w.published)
  {
  }

  predicate Alive(steps: seq<Step>, k: nat) { forall i {:trigger steps[i]} :: k < i < |steps| ==> !steps[i].Crash? }

  predicate Silent(steps: seq<Step>, k: nat, control: bool) {
    forall i {:trigger steps[i]} :: k < i < |steps| ==> steps[i] != Publish(control)
  }

  lemma StoodBefore(steps: seq<Step>, k: nat)
    requires k < |steps| - 1
    ensures Alive(steps, k) <==> Alive(Front(steps), k) && !Last(steps).Crash?
    ensures Silent(steps, k, true) <==> Silent(Front(steps), k, true) && Last(steps) != Publish(true)
    ensures Silent(steps, k, false) <==> Silent(Front(steps), k, false) && Last(steps) != Publish(false)
  {
    assert Last(steps) == steps[|steps| - 1];
    forall i | k < i < |steps| - 1 ensures steps[i] == Front(steps)[i] {
    }
  }

  // ------------------------------------------------------------ counting the events

  /** The control events that the last process to start has received. */
  function Received(steps: seq<Step>): nat
    decreases |steps|
  {
    if steps == [] || Last(steps).Crash? then 0
    else Received(Front(steps)) + if Last(steps) == Publish(true) then 1 else 0
  }

  /** Of these, the ones it had handled when its last pass started. */
  function Handled(steps: seq<Step>): nat
    decreases |steps|
  {
    if steps == [] || Last(steps).Crash? then 0
    else if Last(steps).Capture? then Last(steps).handled.control
    else Handled(Front(steps))
  }

  lemma EpochsMove(w: World, step: Step)
    requires Enabled(w, step)
    ensures Apply(w, step).published == NextPublished(w, step) && Apply(w, step).captured == NextCaptured(w, step)
    ensures Ordered(w) ==> Ordered(Apply(w, step))
  {
  }

  lemma {:induction false} Counted(net: Network, steps: seq<Step>)
    requires Legal(net, steps)
    ensures Ordered(After(net, steps))
    ensures After(net, steps).published.control == Received(steps)
    ensures After(net, steps).captured.control == Handled(steps)
    decreases |steps|
  {
    if steps != [] {
      Counted(net, Front(steps));
      EpochsMove(After(net, Front(steps)), Last(steps));
    }
  }

  // ------------------------------------------------------------------ the theorems

  /** A staged action passes its financial fence exactly as long as its process lives
      and no financial event is published; no later capture repairs it. So it is with
      the control fence within that process. A later one counts its control events
      from zero: there the action passes exactly when the new count happens to be the
      one it was staged at. */
  lemma {:induction false} FencesExact(net: Network, steps: seq<Step>, k: nat, ship: string)
    requires Legal(net, steps) && k < |steps| && steps[k].Stage? && steps[k].ship == ship
    requires forall i :: k < i < |steps| ==> !Rewrites(steps[i], ship)
    ensures Attached(After(net, steps), ship)
    ensures
      var w := After(net, steps);
      var action := Current(w, ship);
      && Behind(w, action) && action.epochs.control == Received(steps[..k])
      && (action.session == w.session <==> Alive(steps, k))
      && (FundsValid(w, action) <==> Alive(steps, k) && Silent(steps, k, false))
      && (Alive(steps, k) ==> (ControlValid(w, action) <==> Silent(steps, k, true)))
      && (ControlValid(w, action) <==> Received(steps[..k]) == Handled(steps) == Received(steps))
    decreases |steps|
  {
    var w, step := After(net, Front(steps)), Last(steps);
    Counted(net, Front(steps));
    Counted(net, steps);
    if k == |steps| - 1 {
      FixedFences(w, step, ship);
      assert steps[..k] == Front(steps);
    } else {
      assert forall i :: k < i < |Front(steps)| ==> Front(steps)[i] == steps[i];
      assert steps[..k] == Front(steps)[..k];
      FencesExact(net, Front(steps), k, ship);
      ActionKept(w, step, ship);
      FencesAfter(w, step, Current(w, ship));
      StoodBefore(steps, k);
    }
  }

  // ---------------------------------------------------------- what a first send means

  lemma {:induction false} AllBehind(net: Network, steps: seq<Step>, ship: string)
    requires Legal(net, steps) && Attached(After(net, steps), ship)
    ensures Behind(After(net, steps), Current(After(net, steps), ship))
    decreases |steps|
  {
    var w, step := After(net, Front(steps)), Last(steps);
    if Fixes(step, ship) {
      FixedFences(w, step, ship);
      Counted(net, Front(steps));
    } else {
      ActionWas(w, step, ship);
      AllBehind(net, Front(steps), ship);
      FencesAfter(w, step, Current(w, ship));
    }
  }

  /** The action was fixed at `k` by the process that is still running. */
  predicate FixedAt(steps: seq<Step>, k: nat, ship: string) {
    && k < |steps| && Fixes(steps[k], ship) && Alive(steps, k)
    && forall i {:trigger steps[i]} :: k < i < |steps| ==> !Fixes(steps[i], ship) && !LetsGo(steps[i], ship)
  }

  lemma FixedStill(steps: seq<Step>, k: nat, ship: string)
    requires steps != [] && FixedAt(Front(steps), k, ship)
    requires !Last(steps).Crash? && !Fixes(Last(steps), ship) && !LetsGo(Last(steps), ship)
    ensures FixedAt(steps, k, ship)
  {
    assert Last(steps) == steps[|steps| - 1];
    assert forall i {:trigger steps[i]} :: 0 <= i < |steps| - 1 ==> steps[i] == Front(steps)[i];
  }

  lemma LetsGoEmpties(w: World, step: Step, ship: string)
    requires Enabled(w, step) && LetsGo(step, ship)
    ensures !Attached(Apply(w, step), ship)
  {
  }

  lemma {:induction false} FixedBy(net: Network, steps: seq<Step>, ship: string) returns (k: nat)
    requires Legal(net, steps) && Attached(After(net, steps), ship)
    requires Current(After(net, steps), ship).session == After(net, steps).session
    ensures FixedAt(steps, k, ship)
    ensures FundsValid(After(net, steps), Current(After(net, steps), ship)) ==> Silent(steps, k, false)
    ensures ControlValid(After(net, steps), Current(After(net, steps), ship)) ==> Silent(steps, k, true)
    decreases |steps|
  {
    var w, step := After(net, Front(steps)), Last(steps);
    if Fixes(step, ship) {
      k := |steps| - 1;
    } else {
      ActionWas(w, step, ship);
      AllBehind(net, Front(steps), ship);
      FencesAfter(w, step, Current(w, ship));
      k := FixedBy(net, Front(steps), ship);
      if LetsGo(step, ship) {
        LetsGoEmpties(w, step, ship);
      }
      FixedStill(steps, k, ship);
      StoodBefore(steps, k);
    }
  }

  /** A dispatch that creates its row sends first in the process that staged or rebound
      the action, with no event of either kind since: a count that a restart brings back
      admits nothing there. */
  lemma FirstSendFenced(net: Network, steps: seq<Step>) returns (k: nat)
    requires Legal(net, steps) && steps != [] && Last(steps).Transport?
    requires After(net, Front(steps)).sender.first && After(net, Front(steps)).sender.attempts == 0
    ensures
      FixedAt(Front(steps), k, After(net, Front(steps)).sender.ship)
      && Silent(Front(steps), k, false) && Silent(Front(steps), k, true)
  {
    k := FixedBy(net, Front(steps), After(net, Front(steps)).sender.ship);
  }

  /** A row this process journaled and has not lost belongs to an action it fixed. */
  lemma {:induction false} OwnRow(net: Network, steps: seq<Step>, ship: string)
    requires net.flight <= REMEMBERED && Legal(net, steps) && Attached(After(net, steps), ship)
    requires
      var w := After(net, steps);
      var id := Current(w, ship).id;
      id in w.rows && w.rows[id].state.Pending? && id !in w.survivors
    ensures Current(After(net, steps), ship).session == After(net, steps).session
    decreases |steps|
  {
    var w, step := After(net, Front(steps)), Last(steps);
    if Fixes(step, ship) {
      FixedFences(w, step, ship);
    } else {
      ActionWas(w, step, ship);
      var id := Current(w, ship).id;
      if id in w.rows {
        EveryRunKeepsInv(net, Front(steps));
        SettledIsFinal(w, step, id);
        OwnRow(net, Front(steps), ship);
      } else {
        EveryRunKeepsInv(net, Front(steps));
        RowNew(w, step, id);
        SameOwner(w, ship, step.ship);
      }
    }
  }

  /** Every transport of a request that no crash left behind is made by the process
      that staged or rebound it. */
  lemma SentByItsProcess(net: Network, steps: seq<Step>) returns (k: nat)
    requires net.flight <= REMEMBERED && Legal(net, steps) && steps != [] && Last(steps).Transport?
    requires After(net, Front(steps)).sender.id !in After(net, Front(steps)).survivors
    ensures FixedAt(Front(steps), k, After(net, Front(steps)).sender.ship)
  {
    EveryRunKeepsInv(net, Front(steps));
    var ship := After(net, Front(steps)).sender.ship;
    OwnRow(net, Front(steps), ship);
    k := FixedBy(net, Front(steps), ship);
  }

  lemma SurvivorsKept(w: World, step: Step)
    requires Enabled(w, step) && !step.Crash?
    ensures Apply(w, step).survivors == w.survivors
  {
  }

  lemma FixedIsNew(w: World, step: Step, ship: string)
    requires Owned(w) && Enabled(w, step) && Fixes(step, ship)
    ensures Attached(Apply(w, step), ship) && Current(Apply(w, step), ship).id !in w.rows
  {
    if step.Stage? {
      StagedIsNew(w, step);
    }
  }

  /** No crash has left behind a row of an action fixed by the running process. */
  lemma {:induction false} FixedNotSurvived(net: Network, steps: seq<Step>, k: nat, ship: string)
    requires net.flight <= REMEMBERED && Legal(net, steps) && Attached(After(net, steps), ship)
    requires FixedAt(steps, k, ship)
    ensures Current(After(net, steps), ship).id !in After(net, steps).survivors
    decreases |steps|
  {
    var w, step := After(net, Front(steps)), Last(steps);
    assert step == steps[|steps| - 1];
    EveryRunKeepsInv(net, Front(steps));
    if k == |steps| - 1 {
      FixedIsNew(w, step, ship);
    } else {
      ActionWas(w, step, ship);
      assert forall i {:trigger steps[i]} :: 0 <= i < |steps| - 1 ==> steps[i] == Front(steps)[i];
      FixedNotSurvived(net, Front(steps), k, ship);
    }
    SurvivorsKept(w, step);
  }

  /** A transport is made by the process that staged or rebound its action exactly when
      no crash has left its row pending. */
  lemma SentByItsProcessExactly(net: Network, steps: seq<Step>)
    requires net.flight <= REMEMBERED && Legal(net, steps) && steps != [] && Last(steps).Transport?
    ensures
      var w := After(net, Front(steps));
      (exists k: nat :: FixedAt(Front(steps), k, w.sender.ship)) <==> w.sender.id !in w.survivors
  {
    var w := After(net, Front(steps));
    if w.sender.id !in w.survivors {
      var k := SentByItsProcess(net, steps);
    } else {
      EveryRunKeepsInv(net, Front(steps));
      forall k: nat | FixedAt(Front(steps), k, w.sender.ship) ensures false {
        FixedNotSurvived(net, Front(steps), k, w.sender.ship);
      }
    }
  }

  /** A resumed dispatch asks only whether every control event received had been handled
      when the pass started. What its action was staged against plays no part. */
  lemma ResumedPastControl(net: Network, steps: seq<Step>)
    requires net.flight <= REMEMBERED && Legal(net, steps)
    requires After(net, steps).sender.Sending? && !After(net, steps).sender.first
    requires After(net, steps).sender.attempts == 0
    ensures
      var w := After(net, steps);
      && w.sender.id in w.rows && w.sender.ship in w.missions
      && (Enabled(w, Transport) <==>
            && Received(steps) == Handled(steps)
            && InWindow(w.rows[w.sender.id], w.now)
            && w.missions[w.sender.ship].cooldownUntil <= w.now)
  {
    EveryRunKeepsInv(net, steps);
    Counted(net, steps);
  }

  // ------------------------------------------------------------ across a restart

  const Deal := Request("POST", "/v1/market/order", [])
  const Held := Action(ActionId("g", "sell", 0), Deal, 0, Epochs(0, 1))
  const Staging := [Publish(true), Capture(Epochs(0, 1)), Open("s", "g", Trade), Stage("s", "sell", Deal)]

  /** One control event was heard and handled, and then an action staged. */
  function Listening(net: Network): World {
    Start(net).(captured := Epochs(0, 1), published := Epochs(0, 1))
  }

  function Opened(net: Network): World {
    Listening(net).(generations := {"g"}, missions := map["s" := Mission("g", Trade, None, 0, 0, None)])
  }

  function Staged(net: Network): World {
    Opened(net).(missions := map["s" := Mission("g", Trade, Some(Held), 0, 0, None)])
  }

  lemma Listens(net: Network) returns (steps: seq<Step>)
    ensures Legal(net, steps) && After(net, steps) == Listening(net) && steps == Staging[..2]
  {
    steps := [];
    Then(net, steps, Publish(true));
    steps := steps + [Publish(true)];
    Then(net, steps, Capture(Epochs(0, 1)));
    steps := steps + [Capture(Epochs(0, 1))];
  }

  lemma Opens(net: Network) returns (steps: seq<Step>)
    ensures Legal(net, steps) && After(net, steps) == Opened(net) && steps == Staging[..3]
  {
    steps := Listens(net);
    Then(net, steps, Open("s", "g", Trade));
    steps := steps + [Open("s", "g", Trade)];
  }

  lemma Stages(net: Network) returns (steps: seq<Step>)
    ensures Legal(net, steps) && After(net, steps) == Staged(net) && steps == Staging
  {
    steps := Opens(net);
    Then(net, steps, Stage("s", "sell", Deal));
    steps := steps + [Stage("s", "sell", Deal)];
  }

  /** A restart alone, with no event since the staging, closes the control fence. */
  lemma RestartRefuses(net: Network) returns (steps: seq<Step>)
    ensures steps == Staging + [Crash] && Legal(net, steps) && Attached(After(net, steps), "s")
    ensures !ControlValid(After(net, steps), Current(After(net, steps), "s"))
  {
    steps := Stages(net);
    Then(net, steps, Crash);
    steps := steps + [Crash];
  }

  function Restarted(net: Network): World {
    Staged(net).(session := 1, captured := Epochs(0, 0), published := Epochs(0, 0))
  }

  lemma Restarts(net: Network) returns (steps: seq<Step>)
    ensures Legal(net, steps) && After(net, steps) == Restarted(net) && steps == Staging + [Publish(true), Crash]
  {
    steps := Stages(net);
    Then(net, steps, Publish(true));
    steps := steps + [Publish(true)];
    Then(net, steps, Crash);
    steps := steps + [Crash];
  }

  /** And it can open one that a control event had closed. */
  lemma RestartReadmits(net: Network) returns (steps: seq<Step>)
    ensures steps == Staging + [Publish(true), Crash] + [Publish(true), Capture(Epochs(0, 1))]
    ensures Legal(net, steps) && Attached(After(net, steps), "s")
    ensures ControlValid(After(net, steps), Current(After(net, steps), "s"))
  {
    steps := Restarts(net);
    Then(net, steps, Publish(true));
    steps := steps + [Publish(true)];
    Then(net, steps, Capture(Epochs(0, 1)));
    steps := steps + [Capture(Epochs(0, 1))];
  }

  // ------------------------------------------- rows left pending before anything was sent

  function Begun(net: Network): World {
    Staged(net).(rows := map[Held.id := Row(Deal, Pending, 0)], sender := Sending("s", Held.id, true, 0))
  }

  lemma Begins(net: Network) returns (steps: seq<Step>)
    ensures Legal(net, steps) && After(net, steps) == Begun(net) && steps == Staging + [Begin("s")]
  {
    steps := Stages(net);
    Then(net, steps, Begin("s"));
    steps := steps + [Begin("s")];
  }

  function Orphaned(net: Network): World {
    Begun(net).(session := 1, captured := Epochs(0, 0), published := Epochs(0, 0), sender := Idle,
                survivors := {Held.id})
  }

  lemma Orphans(net: Network) returns (steps: seq<Step>)
    ensures Legal(net, steps) && After(net, steps) == Orphaned(net) && steps == Staging + [Begin("s"), Crash]
  {
    steps := Begins(net);
    Then(net, steps, Crash);
    steps := steps + [Crash];
    assert {} + {Held.id} == {Held.id};
    assert (set id | id in Begun(net).rows && Begun(net).rows[id].state.Pending?) == {Held.id};
  }

  lemma Resumes(net: Network) returns (steps: seq<Step>)
    ensures Legal(net, steps) && steps == Staging + [Begin("s"), Crash, Resume("s")]
    ensures After(net, steps) == Orphaned(net).(sender := Sending("s", Held.id, false, 0))
  {
    steps := Orphans(net);
    Then(net, steps, Resume("s"));
    steps := steps + [Resume("s")];
  }

  /** A request that a crash left journaled and unsent is sent first by a process that
      never staged or rebound it. */
  lemma FirstSendByAnother(net: Network) returns (steps: seq<Step>)
    requires net.flight <= REMEMBERED
    ensures Legal(net, steps) && steps == Staging + [Begin("s"), Crash, Resume("s")] + [Transport]
    ensures After(net, Front(steps)).sent == {} && After(net, Front(steps)).sender.ship == "s"
    ensures forall k: nat :: !FixedAt(Front(steps), k, "s")
  {
    steps := Resumes(net);
    ghost var before := steps;
    Then(net, steps, Transport);
    steps := steps + [Transport];
    assert Front(steps) == before;
    SentByItsProcessExactly(net, steps);
  }

  function Overtaken(net: Network): World {
    Begun(net).(published := Epochs(1, 1), sender := Idle)
  }

  lemma Overtakes(net: Network) returns (steps: seq<Step>)
    ensures Legal(net, steps) && After(net, steps) == Overtaken(net)
    ensures steps == Staging + [Begin("s"), Release, Publish(false)]
  {
    steps := Begins(net);
    Then(net, steps, Release);
    steps := steps + [Release];
    assert After(net, steps) == Begun(net).(sender := Idle);
    Then(net, steps, Publish(false));
    steps := steps + [Publish(false)];
  }

  /** And one whose dispatch gave up before its first transport is later sent first
      although a financial event has closed its fence, in the same process. */
  lemma FirstSendUnfenced(net: Network) returns (steps: seq<Step>)
    ensures Legal(net, steps) && steps == Staging + [Begin("s"), Release, Publish(false)] + [Resume("s")] + [Transport]
    ensures
      var w := After(net, Front(steps));
      w.sent == {} && Attached(w, "s") && w.sender.ship == "s" && !FundsValid(w, Current(w, "s"))
  {
    steps := Overtakes(net);
    Then(net, steps, Resume("s"));
    steps := steps + [Resume("s")];
    ghost var before := steps;
    assert After(net, before) == Overtaken(net).(sender := Sending("s", Held.id, false, 0));
    Then(net, steps, Transport);
    steps := steps + [Transport];
    assert Front(steps) == before;
  }
}
