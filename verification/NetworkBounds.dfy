/** How slow the network may be. Each delay below which the action protocol keeps a
    promise is exact: one second more, and some run breaks it. */
module NetworkBounds {
  import opened Options
  import opened Runs
  import opened Upstream
  import opened Journal

  const Deal := Request("POST", "/v1/market/order", [])
  const Id := ActionId("g", "sell", 0)
  const Holder := Mission("g", Trade, Some(Action(Id, Deal, 0, Epochs(0, 0))), 0, 0, None)
  // The last moment at which a request created at zero may be transported.
  const LATEST := REPLAY_WINDOW - CUTOFF - 1

  /** A staged request, and then the same one journaled at time zero. */
  function Planned(net: Network): World {
    Start(net).(missions := map["s" := Holder], generations := {"g"})
  }

  function Begun(net: Network): World {
    Planned(net).(rows := map[Id := Row(Deal, Pending, 0)], sender := Sending("s", Id, true, 0))
  }

  lemma Waits(net: Network, before: seq<Step>, elapsed: nat) returns (steps: seq<Step>)
    requires Legal(net, before)
    ensures Legal(net, steps)
    ensures var w := After(net, before); After(net, steps) == w.(now := w.now + elapsed)
  {
    Then(net, before, Tick(elapsed));
    steps := before + [Tick(elapsed)];
  }

  lemma Plans(net: Network) returns (steps: seq<Step>)
    ensures Legal(net, steps) && After(net, steps) == Planned(net)
  {
    steps := [];
    Then(net, steps, Open("s", "g", Trade));
    steps := steps + [Open("s", "g", Trade)];
    Then(net, steps, Stage("s", "sell", Deal));
    steps := steps + [Stage("s", "sell", Deal)];
  }

  lemma Begins(net: Network) returns (steps: seq<Step>)
    ensures Legal(net, steps) && After(net, steps) == Begun(net)
  {
    var before := Plans(net);
    Then(net, before, Begin("s"));
    steps := before + [Begin("s")];
  }

  // ------------------------------------------------------------- absence proofs

  /** A row closed as absent by the records really stays without effect. */
  ghost predicate SettledAbsent(net: Network, steps: seq<Step>, id: ActionId) {
    && Legal(net, steps)
    && id in After(net, steps).rows
    && After(net, steps).rows[id].state == Authoritative(false)
  }

  predicate Effective(w: World, id: ActionId) { id in w.log && w.log[id].applied != [] }

  ghost predicate AbsenceTrue(net: Network) {
    forall steps, id :: SettledAbsent(net, steps, id) ==> !Effective(After(net, steps), id)
  }

  const Late := Message(Id, Deal, LATEST)

  function Leaving(net: Network): World {
    Begun(net).(now := LATEST, sender := Sending("s", Id, true, 1), wire := {Late}, sent := {Late})
  }

  function Travelling(net: Network, at: int): World {
    Leaving(net).(now := at, sender := Idle)
  }

  lemma LeavesNow(net: Network)
    ensures Next(Begun(net).(now := LATEST), Transport, Leaving(net))
  {
    assert {} + {Late} == {Late};
  }

  lemma Leaves(net: Network) returns (steps: seq<Step>)
    ensures Legal(net, steps) && After(net, steps) == Leaving(net)
  {
    steps := Begins(net);
    steps := Waits(net, steps, LATEST);
    LeavesNow(net);
    Then(net, steps, Transport);
    steps := steps + [Transport];
  }

  /** The request leaves at the last moment and is still on its way at `at`. */
  lemma Travels(net: Network, at: int) returns (steps: seq<Step>)
    requires LATEST <= at
    ensures Legal(net, steps) && After(net, steps) == Travelling(net, at)
  {
    var before := Leaves(net);
    Then(net, before, Release);
    var idle := before + [Release];
    assert After(net, idle) == Leaving(net).(sender := Idle);
    steps := Waits(net, idle, at - LATEST);
  }

  /** A list is read just before the request arrives. */
  function ReadEarly(net: Network, at: int): World {
    Travelling(net, at).(wire := {}, log := map[Id := Entry(at, 200, [Deal])], reading := Some(View(at, at, map[])))
  }

  lemma ReadsEarly(net: Network, at: int) returns (steps: seq<Step>)
    requires LATEST <= at <= LATEST + net.flight
    ensures Legal(net, steps) && After(net, steps) == ReadEarly(net, at)
  {
    steps := Travels(net, at);
    Then(net, steps, Read);
    steps := steps + [Read];
    assert After(net, steps) == Travelling(net, at).(reading := Some(View(at, at, map[])));
    Then(net, steps, Deliver(Late, 200));
    steps := steps + [Deliver(Late, 200)];
    assert [] + [Deal] == [Deal];
  }

  function AnsweredLate(net: Network, at: int): World {
    ReadEarly(net, at).(now := REPLAY_WINDOW, reading := None, view := Some(View(at, REPLAY_WINDOW, map[])))
  }

  lemma AnswersLate(net: Network, at: int) returns (steps: seq<Step>)
    requires LATEST <= at <= LATEST + net.flight && REPLAY_WINDOW - net.lag <= at <= REPLAY_WINDOW
    ensures Legal(net, steps) && After(net, steps) == AnsweredLate(net, at)
  {
    steps := ReadsEarly(net, at);
    steps := Waits(net, steps, REPLAY_WINDOW - at);
    Then(net, steps, Answer);
    steps := steps + [Answer];
  }

  /** Its answer comes after the window has passed, and does not show the request. */
  lemma MissedEffect(net: Network) returns (steps: seq<Step>)
    requires !Punctual(net)
    ensures SettledAbsent(net, steps, Id) && Effective(After(net, steps), Id)
  {
    var before := AnswersLate(net, Max(LATEST, REPLAY_WINDOW - net.lag));
    Then(net, before, Observe("s", false));
    steps := before + [Observe("s", false)];
  }

  /** Calling a request absent once records answered after its replay window lack it
      is sound on exactly the punctual networks: the longest flight of a request and
      the age of an answered list may use up the reserved minute, not more. */
  lemma AbsenceExactly(net: Network)
    ensures AbsenceTrue(net) <==> Punctual(net)
  {
    if Punctual(net) {
      forall steps, id | SettledAbsent(net, steps, id) ensures !Effective(After(net, steps), id) {
        SettledAgreesWithServer(net, steps, id);
        EveryRunKeepsInv(net, steps);
      }
    } else {
      var steps := MissedEffect(net);
    }
  }

  // --------------------------------------------------------------- single effect

  ghost predicate AppliedOnce(net: Network) {
    forall steps, id :: Legal(net, steps) && Effective(After(net, steps), id) ==>
          |After(net, steps).log[id].applied| == 1
  }

  const Early := Message(Id, Deal, 0)

  function Effected(net: Network): World {
    Begun(net).(sender := Sending("s", Id, true, 1), sent := {Early}, log := map[Id := Entry(0, 200, [Deal])])
  }

  function Launched(net: Network): World {
    Begun(net).(sender := Sending("s", Id, true, 1), wire := {Early}, sent := {Early})
  }

  lemma LaunchesNow(net: Network)
    ensures Next(Begun(net), Transport, Launched(net))
  {
    assert {} + {Early} == {Early};
  }

  lemma Arrives(net: Network)
    ensures Next(Launched(net), Deliver(Early, 200), Effected(net))
  {
    assert [] + [Deal] == [Deal];
    assert {Early} - {Early} == {};
  }

  lemma TakesEffect(net: Network) returns (steps: seq<Step>)
    ensures Legal(net, steps) && After(net, steps) == Effected(net)
  {
    steps := Begins(net);
    LaunchesNow(net);
    Then(net, steps, Transport);
    steps := steps + [Transport];
    Arrives(net);
    Then(net, steps, Deliver(Early, 200));
    steps := steps + [Deliver(Early, 200)];
  }

  /** Unheard, the same request leaves again at the last moment. */
  function Repeated(net: Network): World {
    Effected(net).(now := LATEST, sender := Sending("s", Id, true, 2), wire := {Late}, sent := {Early, Late})
  }

  lemma RepeatsNow(net: Network)
    ensures Next(Effected(net).(now := LATEST), Transport, Repeated(net))
  {
    assert {} + {Late} == {Late} && {Early} + {Late} == {Early, Late};
  }

  lemma Repeats(net: Network) returns (steps: seq<Step>)
    ensures Legal(net, steps) && After(net, steps) == Repeated(net)
  {
    var early := TakesEffect(net);
    var before := Waits(net, early, LATEST);
    assert After(net, before) == Effected(net).(now := LATEST);
    RepeatsNow(net);
    Then(net, before, Transport);
    steps := before + [Transport];
  }

  lemma TakesEffectTwice(net: Network) returns (steps: seq<Step>)
    requires REMEMBERED < net.flight
    ensures Legal(net, steps) && Effective(After(net, steps), Id) && |After(net, steps).log[Id].applied| == 2
  {
    steps := Repeats(net);
    steps := Waits(net, steps, SERVER_RETENTION - LATEST);
    Then(net, steps, Deliver(Late, 200));
    steps := steps + [Deliver(Late, 200)];
  }

  /** A key takes effect at most once in every run exactly when a request started in
      time arrives while the server still remembers its first copy. */
  lemma OnceExactly(net: Network)
    ensures AppliedOnce(net) <==> net.flight <= REMEMBERED
  {
    if net.flight <= REMEMBERED {
      forall steps, id | Legal(net, steps) && Effective(After(net, steps), id)
        ensures |After(net, steps).log[id].applied| == 1
      {
        AppliedAtMostOnce(net, steps, id);
      }
    } else {
      var steps := TakesEffectTwice(net);
    }
  }
}
