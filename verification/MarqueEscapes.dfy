/** Runs in which the marque loss limit fails: a list shown while the clock is invalid
    clears a letter that nothing else remembers, and on a slow network a request that
    was called absent takes effect after all. */
module MarqueEscapes {
  import opened Options
  import opened Upstream
  import opened Marque
  import opened MarqueRuns

  const Offer := Quote("a", 500, 60, 200_000, 1_000_000, 2.0, 0, false)
  const NoReturns := Returns(0, 0, 0, 0)
  const Calm := Setting(false, false, 0, 0, NoReturns, NoReturns, NoReturns, 10_000_000, 10_000_000)
  const Nothing := Tally(0, 0, 0, 0)
  const First := Letter("x", "a", 200_000, 0, 100_000)

  function EmptyAt(now: int): Pass { Pass([], true, Some((now, now))) }

  /** `v` is reached from `w` by these steps, all of them careful. */
  ghost predicate Leads(w: World, steps: seq<Step>, v: World) {
    Legal(w, steps) && After(w, steps) == v && CarefulRun(w, steps)
  }

  lemma {:induction false} RunSplits(w: World, a: seq<Step>, b: seq<Step>)
    requires Legal(w, a) && Legal(After(w, a), b)
    ensures Legal(w, a + b) && After(w, a + b) == After(After(w, a), b)
    ensures CarefulRun(w, a) && CarefulRun(After(w, a), b) ==> CarefulRun(w, a + b)
    decreases |a|
  {
    if a == [] {
      assert a + b == b;
    } else {
      assert (a + b)[0] == a[0] && (a + b)[1..] == a[1..] + b;
      RunSplits(Apply(w, a[0]), a[1..], b);
    }
  }

  lemma Joined(w: World, a: seq<Step>, v: World, b: seq<Step>, u: World)
    requires Leads(w, a, v) && Leads(v, b, u)
    ensures Leads(w, a + b, u)
  {
    RunSplits(w, a, b);
  }

  lemma One(w: World, step: Step)
    requires Enabled(w, step)
    ensures Legal(w, [step]) && After(w, [step]) == Apply(w, step)
    ensures Careful(w, step) ==> CarefulRun(w, [step])
  {
    assert [step][1..] == [];
  }

  lemma Two(w: World, first: Step, second: Step)
    requires Enabled(w, first) && Enabled(Apply(w, first), second)
    requires Careful(w, first) && Careful(Apply(w, first), second)
    ensures Leads(w, [first, second], Apply(Apply(w, first), second))
  {
    One(Apply(w, first), second);
    assert [first, second][1..] == [second];
  }

  predicate Quiet(w: World) { w.record.outcomes == map[] && w.record.active == map[] && !w.record.pending.Issued? }

  // The world after a pass whose list is empty.
  function Looked(w: World): World {
    w.(record := Recorded(w.record, EmptyAt(w.now), w.mission), pass := EmptyAt(w.now), ready := true,
       reading := None, seen := Seen(w.now, w.now, w.letters.Keys))
  }

  lemma EmptyLook(w: World)
    requires Quiet(w) && (w.mission.Done? ==> w.mission.issued.None?)
    ensures Sound(Recorded(w.record, EmptyAt(w.now), w.mission))
    ensures Quiet(Looked(w)) && EvidenceIs(Looked(w).record, EmptyAt(w.now), Nothing)
  {
    assert Costs(map[]) == map[] && Prizes(map[]) == map[] && LetterCosts(map[]) == map[];
    assert Total(map[]) == 0;
  }

  lemma Looks(w: World) returns (steps: seq<Step>)
    requires Quiet(w) && (w.mission.Done? ==> w.mission.issued.None?)
    ensures Leads(w, steps, Looked(w))
    ensures Quiet(Looked(w)) && EvidenceIs(Looked(w).record, EmptyAt(w.now), Nothing)
  {
    EmptyLook(w);
    steps := [Read, Look(EmptyAt(w.now))];
    Two(w, Read, Look(EmptyAt(w.now)));
  }

  lemma OfferAccepted()
    ensures EvaluateMarque(Offer, Nothing, Calm) == Accepted && Preflight(Offer, Offer, Some(Nothing), Calm) == Clear
  {
  }

  // A request of 200,000 pence on its way from a record that holds nothing.
  predicate Asking(w: World, v: World) {
    var asked := Asked(w.asked.number + 1, "a", 200_000, w.now);
    v == w.(record := v.record, mission := Sent(Offer), effect := None, asked := asked, wire := w.wire + {asked},
            pass := v.pass, reading := None, seen := v.seen, ready := false)
  }

  /** One pass over an empty list, and then one step of the mission. */
  lemma Advances(w: World, step: Step) returns (steps: seq<Step>)
    requires Quiet(w) && (w.mission.Done? ==> w.mission.issued.None?)
    requires step in {Admit(Offer, Nothing, Calm), Stage(Offer, Nothing, Calm), Send(Offer, Nothing, Calm)}
    requires step.Admit? ==> w.mission.NoMission?
    requires step.Stage? ==> w.mission == Admitted(Offer)
    requires step.Send? ==> w.mission == Staged(Offer)
    ensures Enabled(Looked(w), step) && Leads(w, steps, Apply(Looked(w), step))
    ensures Quiet(Apply(Looked(w), step))
    ensures step.Send? ==> Asking(w, Apply(Looked(w), step))
  {
    OfferAccepted();
    var before := Looks(w);
    One(Looked(w), step);
    Joined(w, before, Looked(w), [step], Apply(Looked(w), step));
    steps := before + [step];
  }

  lemma Stages(w: World) returns (steps: seq<Step>, v: World)
    requires Quiet(w) && w.mission.NoMission?
    ensures Leads(w, steps, v) && Quiet(v)
    ensures v == w.(record := v.record, mission := Staged(Offer), pass := v.pass, reading := None, seen := v.seen,
                    ready := false)
  {
    var a := Advances(w, Admit(Offer, Nothing, Calm));
    var admitted := Apply(Looked(w), Admit(Offer, Nothing, Calm));
    var b := Advances(admitted, Stage(Offer, Nothing, Calm));
    v := Apply(Looked(admitted), Stage(Offer, Nothing, Calm));
    Joined(w, a, admitted, b, v);
    steps := a + b;
  }

  /** From a record that holds nothing, an issue can be sent. */
  lemma Admission(w: World) returns (steps: seq<Step>, v: World)
    requires Quiet(w) && w.mission.NoMission?
    ensures Leads(w, steps, v) && Asking(w, v) && Quiet(v)
  {
    var a, staged := Stages(w);
    var b := Advances(staged, Send(Offer, Nothing, Calm));
    v := Apply(Looked(staged), Send(Offer, Nothing, Calm));
    Joined(w, a, staged, b, v);
    steps := a + b;
  }

  lemma TwoLetters(w: World)
    requires w.letters == map["x" := First, "y" := First.(id := "y")] && w.record.outcomes == map[]
    ensures Loss(w) == 400_000 && !OneUnsettled(w)
  {
    var costs := LetterCosts(w.letters);
    assert costs == map["x" := 200_000]["y" := 200_000] && map["x" := 200_000] == map[]["x" := 200_000];
    TotalPut(map["x" := 200_000], "y", 200_000);
    TotalPut(map[], "x", 200_000);
    assert Total(map[]) == 0 && Prizes(map[]) == map[];
    assert "x" in w.letters && "y" in w.letters && "x" != "y";
  }

  /** Once the first letter is forgotten, a second is issued beside it. */
  lemma SecondLetter(w: World) returns (steps: seq<Step>, v: World)
    requires Quiet(w) && w.mission.NoMission? && w.letters == map["x" := First]
    ensures Leads(w, steps, v) && Loss(v) > LOSS_LIMIT && !OneUnsettled(v)
  {
    var before, asking := Admission(w);
    var issue := Issue(asking.asked, "y", 100_000);
    One(asking, issue);
    v := Apply(asking, issue);
    Joined(w, before, asking, [issue], v);
    steps := before + [issue];
    TwoLetters(v);
  }

  // -------------------------------------------------------------- without a clock

  // A current list that shows the letter, in a pass whose clock reading failed.
  const Clockless := Pass([First], true, None)

  function Issuing(w: World): World {
    w.(letters := map["x" := First], born := map["x" := w.now], wire := w.wire - {w.asked}, effect := Some("x"))
  }

  lemma IssuesFirst(w: World) returns (steps: seq<Step>, v: World)
    requires w.letters == map[] && w.born == map[] && Quiet(w) && w.mission == Sent(Offer) && w.effect.None?
    requires w.asked in w.wire && w.asked.zone == "a" && w.asked.charge == 200_000 && Live(w, w.asked)
    ensures Leads(w, steps, v)
    ensures Quiet(v) && v.letters == map["x" := First] && v.mission == Done(Offer, Some("x")) && v.net == w.net
  {
    Two(w, Issue(w.asked, "x", 100_000), Receipt);
    v := Apply(Issuing(w), Receipt);
    steps := [Issue(w.asked, "x", 100_000), Receipt];
  }

  lemma LooksClockless(w: World) returns (steps: seq<Step>, v: World)
    requires Quiet(w) && w.letters == map["x" := First] && w.mission == Done(Offer, Some("x"))
    ensures Legal(w, steps) && After(w, steps) == v
    ensures Quiet(v) && v.letters == w.letters && v.mission == w.mission && v.ready && v.net == w.net
  {
    One(w, Read);
    assert Costs(map[]) == map[] && Prizes(map[]) == map[] && Total(map[]) == 0;
    assert First in [First];
    One(Apply(w, Read), Look(Clockless));
    RunSplits(w, [Read], [Look(Clockless)]);
    steps := [Read] + [Look(Clockless)];
    v := Apply(Apply(w, Read), Look(Clockless));
  }

  /** The letter is issued, seen once without a clock, and its mission ends. */
  lemma Forgets(w: World) returns (steps: seq<Step>, v: World)
    requires w.letters == map[] && w.born == map[] && Quiet(w) && w.mission == Sent(Offer) && w.effect.None?
    requires w.asked in w.wire && w.asked.zone == "a" && w.asked.charge == 200_000 && Live(w, w.asked)
    ensures Legal(w, steps) && After(w, steps) == v
    ensures Quiet(v) && v.mission.NoMission? && v.letters == map["x" := First]
  {
    var a, issued := IssuesFirst(w);
    var b, seen := LooksClockless(issued);
    RunSplits(w, a, b);
    One(seen, Delete);
    v := Apply(seen, Delete);
    RunSplits(w, a + b, [Delete]);
    steps := a + b + [Delete];
  }

  /** Without the guard on lists the limit fails on every network. */
  lemma LossEscapes(net: Network) returns (steps: seq<Step>)
    ensures Legal(Start(net), steps)
    ensures Loss(After(Start(net), steps)) > LOSS_LIMIT && !OneUnsettled(After(Start(net), steps))
  {
    var a, asking := Admission(Start(net));
    var b, forgotten := Forgets(asking);
    RunSplits(Start(net), a, b);
    var c, v := SecondLetter(forgotten);
    RunSplits(Start(net), a + b, c);
    steps := a + b + c;
  }

  // ------------------------------------------------------------ on a slow network

  // The list was read at `at`, just before the request took effect there.
  function ReadEarly(w: World, at: int): World {
    Issuing(w.(now := at)).(reading := Some(Seen(at, at, {})))
  }

  lemma ReadsEarly(w: World, at: int) returns (steps: seq<Step>)
    requires w.letters == map[] && w.born == map[] && w.mission == Sent(Offer) && w.effect.None? && w.now <= at
    requires w.asked in w.wire && w.asked.zone == "a" && w.asked.charge == 200_000
    requires at < w.asked.createdAt + REPLAY_WINDOW - CUTOFF + w.net.flight
    ensures Leads(w, steps, ReadEarly(w, at))
  {
    assert w.letters.Keys == {};
    Two(w, Tick(at - w.now), Read);
    var v := w.(now := at, reading := Some(Seen(at, at, {})));
    assert Apply(Apply(w, Tick(at - w.now)), Read) == v;
    One(v, Issue(w.asked, "x", 100_000));
    assert Apply(v, Issue(w.asked, "x", 100_000)) == ReadEarly(w, at);
    steps := [Tick(at - w.now), Read] + [Issue(w.asked, "x", 100_000)];
    Joined(w, [Tick(at - w.now), Read], v, [Issue(w.asked, "x", 100_000)], ReadEarly(w, at));
  }

  // The answer arrives after the replay window and shows no letter.
  function Called(w: World, at: int): World {
    ReadEarly(w, at).(now := REPLAY_WINDOW, reading := None, pass := EmptyAt(REPLAY_WINDOW), ready := false,
                      record := Recorded(w.record, EmptyAt(REPLAY_WINDOW), w.mission),
                      seen := Seen(at, REPLAY_WINDOW, {}), mission := Done(Offer, None))
  }

  lemma CallsAbsent(w: World, at: int) returns (steps: seq<Step>)
    requires Quiet(w) && w.mission == Sent(Offer) && w.asked.createdAt == 0
    requires at <= REPLAY_WINDOW <= at + w.net.lag
    ensures Leads(ReadEarly(w, at), steps, Called(w, at)) && Quiet(Called(w, at))
  {
    var u := ReadEarly(w, at);
    EmptyLook(w.(now := REPLAY_WINDOW));
    Two(u, Tick(REPLAY_WINDOW - at), Look(EmptyAt(REPLAY_WINDOW)));
    var v := Called(w, at).(ready := true, mission := Sent(Offer));
    assert Apply(Apply(u, Tick(REPLAY_WINDOW - at)), Look(EmptyAt(REPLAY_WINDOW))) == v;
    One(v, Absent);
    steps := [Tick(REPLAY_WINDOW - at), Look(EmptyAt(REPLAY_WINDOW))] + [Absent];
    Joined(u, [Tick(REPLAY_WINDOW - at), Look(EmptyAt(REPLAY_WINDOW))], v, [Absent], Called(w, at));
  }

  lemma Ends(w: World) returns (steps: seq<Step>, v: World)
    requires Quiet(w) && w.mission == Done(Offer, None)
    ensures Leads(w, steps, v) && v.mission.NoMission? && Quiet(v) && v.letters == w.letters && v.net == w.net
  {
    var a := Looks(w);
    One(Looked(w), Delete);
    v := Apply(Looked(w), Delete);
    Joined(w, a, Looked(w), [Delete], v);
    steps := a + [Delete];
  }

  lemma SlowLoss(net: Network) returns (steps: seq<Step>, v: World)
    requires !Punctual(net)
    ensures Leads(Start(net), steps, v) && Loss(v) > LOSS_LIMIT
  {
    var latest := REPLAY_WINDOW - CUTOFF - 1;
    var at := if REPLAY_WINDOW - net.lag < latest then latest else REPLAY_WINDOW - net.lag;
    var a, asking := Admission(Start(net));
    assert asking.asked in asking.wire;
    var b := ReadsEarly(asking, at);
    Joined(Start(net), a, asking, b, ReadEarly(asking, at));
    var c := CallsAbsent(asking, at);
    Joined(Start(net), a + b, ReadEarly(asking, at), c, Called(asking, at));
    var d, ended := Ends(Called(asking, at));
    Joined(Start(net), a + b + c, Called(asking, at), d, ended);
    var e;
    e, v := SecondLetter(ended);
    Joined(Start(net), a + b + c + d, ended, e, v);
    steps := a + b + c + d + e;
  }

  ghost predicate LossSafe(net: Network) {
    forall steps :: Legal(Start(net), steps) && CarefulRun(Start(net), steps) ==>
                      Loss(After(Start(net), steps)) <= LOSS_LIMIT
  }

  /** The limit holds in every careful run on exactly the punctual networks. */
  lemma LossExactly(net: Network)
    ensures LossSafe(net) <==> Punctual(net)
  {
    if Punctual(net) {
      forall steps | Legal(Start(net), steps) && CarefulRun(Start(net), steps)
        ensures Loss(After(Start(net), steps)) <= LOSS_LIMIT
      {
        LossBounded(net, steps);
      }
    } else {
      var steps, v := SlowLoss(net);
      assert Legal(Start(net), steps);
    }
  }
}
