/** Whole runs of the marque controller, with crashes, ambiguous issues, requests that
    arrive late, and lists that lag or omit letters. */
module MarqueRuns {
  import opened Options
  import opened Upstream
  import opened Marque

  /** A journaled request on its way; `charge` is the price quoted just before. */
  datatype Asked = Asked(number: nat, zone: string, charge: int, createdAt: int)

  /** When a list was read on the server and answered, and the letters there were. */
  datatype Seen = Seen(readAt: int, answeredAt: int, known: set<string>)

  /** `letters` is the server's and `wire` on its way there. `asked` is the latest request
      and `effect` the letter it created. `ready` says that a pass has been recorded since
      the mission last changed, `seen` when. `born` records when each letter was issued. */
  datatype World = World(
    net: Network,
    now: int,
    letters: map<string, Letter>,
    born: map<string, int>,
    wire: set<Asked>,
    record: Record,
    mission: Mission,
    asked: Asked,
    effect: Option<string>,
    pass: Pass,
    reading: Option<Seen>,
    seen: Seen,
    ready: bool)

  function Start(net: Network): World {
    World(net, 0, map[], map[], {}, Record(map[], map[], NoPending), NoMission, Asked(0, "", 0, 0), None,
          Pass([], false, None), None, Seen(0, 0, {}), false)
  }

  datatype Step =
    | Read
    | Look(pass: Pass)
    | Admit(quote: Quote, tally: Tally, at: Setting)
    | Stage(quote: Quote, tally: Tally, at: Setting)
    | Send(quote: Quote, tally: Tally, at: Setting)
    | Issue(asked: Asked, id: string, expires: int)
    // A receipt, or a new matching record in the list.
    | Receipt
    | Refuse
    | Absent
    | Retire(dropped: bool)
    | Delete
    | Earn(id: string, amount: nat)
    | Tick(elapsed: nat)
    | Crash

  /** Lists may omit letters and lag behind, but what they show is true. */
  predicate Truthful(letters: map<string, Letter>, listed: seq<Letter>) {
    forall letter <- listed ::
      && letter.id in letters
      && ValidLetter(letter)
      && letter == letters[letter.id].(prize := letter.prize)
  }

  predicate PrizesKept(before: map<string, Outcome>, after: map<string, Outcome>) {
    forall id <- before :: id in after && before[id].prize <= after[id].prize
  }

  /** Transports end a minute before the replay window; each has its flight before it. */
  predicate Live(w: World, asked: Asked) { w.now < asked.createdAt + REPLAY_WINDOW - CUTOFF + w.net.flight }

  predicate Own(w: World, asked: Asked) { w.mission.Sent? && asked == w.asked }

  ghost predicate Enabled(w: World, step: Step) {
    match step
    case Read => true
    case Look(pass) =>
      && w.reading.Some? && w.now <= w.reading.value.readAt + w.net.lag
      && Truthful(w.letters, pass.listed)
      && Sound(Recorded(w.record, pass, w.mission))
      && PrizesKept(w.record.outcomes, Recorded(w.record, pass, w.mission).outcomes)
    case Admit(quote, tally, at) =>
      && w.ready && w.mission.NoMission? && !w.record.pending.Issued?
      && EvidenceIs(w.record, w.pass, tally)
      && ValidQuote(quote, quote.zone)
      && EvaluateMarque(quote, tally, at) == Accepted
      && quote.cost <= at.available
    case Stage(quote, tally, at) =>
      && w.ready && w.mission.Admitted?
      && EvidenceIs(w.record, w.pass, tally)
      && Preflight(w.mission.quote, quote, Some(tally), at) == Clear
    case Send(quote, tally, at) =>
      && w.ready && w.mission.Staged?
      && EvidenceIs(w.record, w.pass, tally)
      && Preflight(w.mission.quote, quote, Some(tally), at) == Clear
    case Issue(asked, id, expires) => asked in w.wire && Live(w, asked) && id !in w.letters
    case Receipt => w.mission.Sent? && w.effect.Some?
    case Refuse => w.mission.Sent? && w.asked in w.wire
    case Absent =>
      && w.ready && w.mission.Sent? && w.pass.current
      && w.asked.createdAt + REPLAY_WINDOW <= w.seen.answeredAt
      && (w.effect.Some? ==> !Listed(w.pass.listed, w.effect.value))
    case Retire(dropped) => w.mission.Staged?
    case Delete => w.ready && (w.mission.Admitted? || w.mission.Done? || w.mission.Dropped?)
    case Earn(id, amount) => id in w.letters
    case Tick(elapsed) => true
    case Crash => true
  }

  ghost function Apply(w: World, step: Step): World
    requires Enabled(w, step)
  {
    match step
    case Read => w.(reading := Some(Seen(w.now, w.now, w.letters.Keys)))
    case Look(pass) =>
      w.(record := Recorded(w.record, pass, w.mission), pass := pass, ready := true,
         reading := None, seen := w.reading.value.(answeredAt := w.now))
    case Admit(quote, _, _) => w.(mission := Admitted(quote), ready := false)
    case Stage(_, _, _) => w.(mission := Staged(w.mission.quote), ready := false)
    case Send(quote, _, _) =>
      var asked := Asked(w.asked.number + 1, w.mission.quote.zone, quote.cost, w.now);
      w.(mission := Sent(w.mission.quote), effect := None, asked := asked, wire := w.wire + {asked}, ready := false)
    case Issue(asked, id, expires) =>
      w.(letters := w.letters[id := Letter(id, asked.zone, asked.charge, 0, expires)], born := w.born[id := w.now],
         wire := w.wire - {asked}, effect := if Own(w, asked) then Some(id) else w.effect)
    case Receipt => w.(mission := Done(w.mission.quote, w.effect), ready := false)
    case Refuse => w.(mission := Done(w.mission.quote, None), wire := w.wire - {w.asked}, ready := false)
    case Absent => w.(mission := Done(w.mission.quote, None), ready := false)
    case Retire(dropped) => w.(mission := if dropped then Dropped else Admitted(w.mission.quote), ready := false)
    case Delete => w.(mission := NoMission, ready := false)
    case Earn(id, amount) =>
      w.(letters := w.letters[id := w.letters[id].(prize := w.letters[id].prize + amount)])
    case Tick(elapsed) => w.(now := w.now + elapsed)
    case Crash => w.(ready := false, reading := None)
  }

  ghost predicate Legal(w: World, steps: seq<Step>)
    decreases |steps|
  {
    steps == [] || (Enabled(w, steps[0]) && Legal(Apply(w, steps[0]), steps[1..]))
  }

  ghost function After(w: World, steps: seq<Step>): World
    requires Legal(w, steps)
    decreases |steps|
  {
    if steps == [] then w else After(Apply(w, steps[0]), steps[1..])
  }

  // ----------------------------------------------------------------- accounting

  predicate Settled(w: World, id: string) { id in w.record.outcomes }

  /** Something durable still remembers this letter's charge. */
  predicate Covered(w: World, id: string) {
    || Settled(w, id)
    || id in w.record.active
    || (w.record.pending.Issued? && w.record.pending.id == id)
    || (w.mission.Sent? && w.effect == Some(id))
    || (w.mission.Done? && !w.ready && w.mission.issued == Some(id))
  }

  predicate Accounted(w: World) { forall id <- w.letters :: Covered(w, id) }

  ghost function Loss(w: World): int { Total(LetterCosts(w.letters)) - Total(Prizes(w.record.outcomes)) }

  predicate OneUnsettled(w: World) {
    forall a, b :: a in w.letters && b in w.letters && !Settled(w, a) && !Settled(w, b) ==> a == b
  }

  predicate RecordTrue(w: World) {
    && (forall id <- w.letters :: w.letters[id].id == id)
    && (forall id <- w.record.outcomes :: id in w.letters && w.record.outcomes[id].cost == w.letters[id].cost)
    && (forall id <- w.record.active :: id in w.letters)
  }

  predicate MissionTrue(w: World) {
    && (w.effect.Some? ==> w.effect.value in w.letters)
    && (w.mission.Done? && w.mission.issued.Some? ==> w.mission.issued.value in w.letters)
    && (w.record.pending.Issued? ==>
          && w.record.pending.id in w.letters
          && (w.mission.NoMission? || (w.mission.Done? && w.mission.issued == Some(w.record.pending.id))))
  }

  /** Before its request takes effect, an issue in flight has room under the limit. */
  ghost predicate InFlight(w: World) {
    w.mission.Sent? && w.effect.None? ==>
      && (forall id <- w.letters :: Settled(w, id))
      && Loss(w) + w.asked.charge <= LOSS_LIMIT
  }

  /** A key takes effect once, and only its own request creates its letter, in time. */
  predicate WireTrue(w: World) {
    && (forall asked <- w.wire :: asked.number <= w.asked.number)
    && (forall asked <- w.wire :: asked.number == w.asked.number ==> asked == w.asked)
    && (w.mission.Sent? && w.effect.Some? ==>
          && w.asked !in w.wire
          && w.effect.value in w.born
          && w.born[w.effect.value] < w.asked.createdAt + REPLAY_WINDOW - CUTOFF + w.net.flight)
  }

  predicate Sees(w: World, seen: Seen) {
    && seen.readAt <= seen.answeredAt <= w.now
    && seen.answeredAt <= seen.readAt + w.net.lag
    && (forall id <- seen.known :: id in w.letters)
    && forall id <- w.born :: id in seen.known || seen.readAt <= w.born[id]
  }

  predicate SeenTrue(w: World) {
    && w.letters.Keys == w.born.Keys
    && Sees(w, w.seen)
    && (w.reading.Some? ==> Sees(w, w.reading.value))
  }

  /** No request but the mission's own can still take effect. */
  predicate NoLateRequest(w: World) { forall asked <- w.wire :: Live(w, asked) ==> Own(w, asked) }

  ghost predicate Inv(w: World) {
    && RecordTrue(w)
    && MissionTrue(w)
    && Accounted(w)
    && OneUnsettled(w)
    && Loss(w) <= LOSS_LIMIT
    && InFlight(w)
    && WireTrue(w)
    && SeenTrue(w)
    && (Punctual(w.net) ==> NoLateRequest(w))
  }

  predicate LookGuarded(w: World, pass: Pass) {
    var next := MissionPending(w.record.pending, w.mission);
    next.Issued? && pass.current && pass.clock.None? && Listed(pass.listed, next.id) ==>
      next.id in w.record.outcomes || next.id in w.record.active
  }

  /** A current list may not clear the pending issue while the clock is invalid, no
      request may be called absent that has created a letter, and none may create one
      after its mission has let go of it. */
  predicate Guarded(w: World, step: Step) {
    match step
    case Look(pass) => LookGuarded(w, pass)
    case Absent => w.effect.Some? ==> w.effect.value in w.record.outcomes || w.effect.value in w.record.active
    case Issue(asked, _, _) => Own(w, asked)
    case _ => true
  }

  /** What can be asked of the outside world for that: a current list shown while the
      clock is invalid does not clear the pending issue, and a list that is taken for
      an absence shows every letter there was when it was read. */
  predicate Careful(w: World, step: Step) {
    match step
    case Look(pass) => LookGuarded(w, pass)
    case Absent => forall id <- w.seen.known :: Listed(w.pass.listed, id)
    case _ => true
  }

  ghost predicate CarefulRun(w: World, steps: seq<Step>)
    requires Legal(w, steps)
    decreases |steps|
  {
    steps == [] || (Careful(w, steps[0]) && CarefulRun(Apply(w, steps[0]), steps[1..]))
  }

  lemma {:induction false} MergeKeeps(outcomes: map<string, Outcome>, listed: seq<Letter>, observedAt: int)
    ensures forall id <- outcomes :: id in Merge(outcomes, listed, observedAt)
    decreases |listed|
  {
    if listed != [] {
      MergeKeeps(outcomes, listed[..|listed| - 1], observedAt);
    }
  }

  lemma {:induction false} MergeTrue(
      outcomes: map<string, Outcome>, listed: seq<Letter>, observedAt: int, letters: map<string, Letter>)
    requires Truthful(letters, listed)
    requires forall id <- outcomes :: id in letters && outcomes[id].cost == letters[id].cost
    ensures var merged := Merge(outcomes, listed, observedAt);
            forall id <- merged :: id in letters && merged[id].cost == letters[id].cost
    decreases |listed|
  {
    if listed != [] {
      var front, last := listed[..|listed| - 1], listed[|listed| - 1];
      MergeTrue(outcomes, front, observedAt, letters);
      assert last in listed;
    }
  }

  lemma {:induction false} RetainTrue(
      active: map<string, Letter>, listed: seq<Letter>, observedAt: int, letters: map<string, Letter>)
    requires Truthful(letters, listed)
    requires forall id <- active :: id in letters
    ensures forall id <- Retain(active, listed, observedAt) :: id in letters
    decreases |listed|
  {
    if listed != [] {
      var front, last := listed[..|listed| - 1], listed[|listed| - 1];
      RetainTrue(active, front, observedAt, letters);
      assert last in listed;
    }
  }

  /** With a valid clock, no letter leaves the record: it is retained or it settles. */
  lemma {:induction false} NothingForgotten(r: Record, listed: seq<Letter>, observedAt: int, id: string)
    requires id in r.active || Listed(listed, id)
    ensures id in Retain(r.active, listed, observedAt) || id in Merge(r.outcomes, listed, observedAt)
    decreases |listed|
  {
    if listed != [] {
      var front, last := listed[..|listed| - 1], listed[|listed| - 1];
      if id != last.id {
        if Listed(listed, id) {
          var letter :| letter in listed && letter.id == id;
          assert letter in front;
        }
        NothingForgotten(r, front, observedAt, id);
      }
    }
  }

  lemma {:induction false} InForceHoldsActive(active: map<string, Letter>, listed: seq<Letter>, now: int)
    ensures forall id <- active :: id in InForceLetters(active, listed, now)
    decreases |listed|
  {
    if listed != [] {
      InForceHoldsActive(active, listed[..|listed| - 1], now);
    }
  }

  lemma LookCovered(w: World, pass: Pass, id: string)
    requires Inv(w) && Enabled(w, Look(pass)) && id in w.letters && Guarded(w, Look(pass))
    ensures Covered(Apply(w, Look(pass)), id)
  {
    var r := w.record;
    if pass.current && pass.clock.Some? {
      MergeKeeps(r.outcomes, pass.listed, pass.clock.value.0);
      if id in r.active || Listed(pass.listed, id) {
        NothingForgotten(r, pass.listed, pass.clock.value.0, id);
      }
    }
  }

  lemma LookTrue(w: World, pass: Pass)
    requires Inv(w) && Enabled(w, Look(pass))
    ensures RecordTrue(Apply(w, Look(pass)))
  {
    if pass.current && pass.clock.Some? {
      MergeTrue(w.record.outcomes, pass.listed, pass.clock.value.0, w.letters);
      RetainTrue(w.record.active, pass.listed, pass.clock.value.0, w.letters);
    }
  }

  lemma LookLoss(w: World, pass: Pass)
    requires Inv(w) && Enabled(w, Look(pass))
    ensures Loss(Apply(w, Look(pass))) <= Loss(w)
  {
    TotalGrows(Prizes(w.record.outcomes), Prizes(Recorded(w.record, pass, w.mission).outcomes));
  }

  /** An admission finds nothing in force, so every letter has settled. */
  lemma EvidenceSettled(w: World, quote: Quote, tally: Tally, at: Setting)
    requires Inv(w) && w.mission.Staged? && EvidenceIs(w.record, w.pass, tally)
    requires EvaluateMarque(quote, tally, at) == Accepted
    ensures forall id <- w.letters :: Settled(w, id)
    ensures Loss(w) + quote.cost <= LOSS_LIMIT
  {
    InForceHoldsActive(w.record.active, w.pass.listed, w.pass.clock.value.1);
    assert InForceLetters(w.record.active, w.pass.listed, w.pass.clock.value.1).Keys == {};
    forall id <- w.letters ensures Settled(w, id) {
      assert Covered(w, id);
    }
    assert LetterCosts(w.letters) == Costs(w.record.outcomes);
  }

  lemma IssueLoss(w: World, v: World, id: string, charge: int)
    requires RecordTrue(w) && id !in w.letters && v.record == w.record
    requires v.letters.Keys == w.letters.Keys + {id} && v.letters[id].cost == charge
    requires forall other <- w.letters :: v.letters[other] == w.letters[other]
    ensures Loss(v) == Loss(w) + charge
  {
    TotalPut(LetterCosts(w.letters), id, charge);
    assert LetterCosts(v.letters) == LetterCosts(w.letters)[id := charge];
  }

  lemma LookMission(w: World, pass: Pass)
    requires Inv(w) && Enabled(w, Look(pass))
    ensures MissionTrue(Apply(w, Look(pass)))
  {
  }

  lemma LookSettled(w: World, pass: Pass)
    requires Inv(w) && Enabled(w, Look(pass))
    ensures forall id: string :: Settled(w, id) ==> Settled(Apply(w, Look(pass)), id)
    ensures OneUnsettled(Apply(w, Look(pass))) && InFlight(Apply(w, Look(pass)))
  {
    LookLoss(w, pass);
    if pass.current && pass.clock.Some? {
      MergeKeeps(w.record.outcomes, pass.listed, pass.clock.value.0);
    }
  }

  lemma LookKeepsInv(w: World, pass: Pass)
    requires Inv(w) && Enabled(w, Look(pass)) && Guarded(w, Look(pass))
    ensures Inv(Apply(w, Look(pass)))
  {
    LookTrue(w, pass);
    LookMission(w, pass);
    LookSettled(w, pass);
    LookLoss(w, pass);
    forall id <- w.letters ensures Covered(Apply(w, Look(pass)), id) {
      LookCovered(w, pass, id);
    }
  }

  lemma SendKeepsInv(w: World, step: Step)
    requires Inv(w) && Enabled(w, step) && step.Send?
    ensures Inv(Apply(w, step))
  {
    EvidenceSettled(w, step.quote, step.tally, step.at);
    assert Loss(Apply(w, step)) == Loss(w);
    forall id <- w.letters ensures Covered(Apply(w, step), id) {
      assert Settled(w, id);
    }
  }

  lemma IssueAdds(w: World, step: Step)
    requires RecordTrue(w) && Enabled(w, step) && step.Issue? && Guarded(w, step)
    ensures var v := Apply(w, step);
            && v.record == w.record && v.mission == w.mission && v.asked == w.asked && v.effect == Some(step.id)
            && v.letters == w.letters[step.id := Letter(step.id, w.asked.zone, w.asked.charge, 0, step.expires)]
            && v.born == w.born[step.id := w.now] && v.net == w.net && v.now == w.now
            && v.seen == w.seen && v.reading == w.reading && v.wire == w.wire - {w.asked}
  {
  }

  lemma IssueSeen(w: World, step: Step)
    requires Inv(w) && Enabled(w, step) && step.Issue? && Guarded(w, step)
    ensures WireTrue(Apply(w, step)) && SeenTrue(Apply(w, step))
    ensures Punctual(w.net) ==> NoLateRequest(Apply(w, step))
  {
    IssueAdds(w, step);
  }

  lemma IssueKeepsInv(w: World, step: Step)
    requires Inv(w) && Enabled(w, step) && step.Issue? && Guarded(w, step)
    ensures Inv(Apply(w, step))
  {
    var v := Apply(w, step);
    IssueAdds(w, step);
    IssueSeen(w, step);
    IssueLoss(w, v, step.id, w.asked.charge);
    forall id <- v.letters ensures Covered(v, id) && (Settled(v, id) || id == step.id) {
      assert id == step.id || Settled(w, id);
    }
  }

  // A step that leaves the record alone, and the letters but for their prizes.
  lemma SameLetters(w: World, v: World)
    requires RecordTrue(w) && OneUnsettled(w)
    requires v.record == w.record && v.letters.Keys == w.letters.Keys
    requires forall id <- w.letters :: v.letters[id].id == id && v.letters[id].cost == w.letters[id].cost
    ensures RecordTrue(v) && OneUnsettled(v) && Loss(v) == Loss(w)
  {
    assert LetterCosts(v.letters) == LetterCosts(w.letters);
  }

  lemma EarnSeen(w: World, step: Step)
    requires Inv(w) && Enabled(w, step) && step.Earn?
    ensures var v := Apply(w, step);
            MissionTrue(v) && WireTrue(v) && SeenTrue(v) && (Punctual(v.net) ==> NoLateRequest(v))
  {
    assert Apply(w, step).letters.Keys == w.letters.Keys;
  }

  lemma EarnKeepsInv(w: World, step: Step)
    requires Inv(w) && Enabled(w, step) && step.Earn?
    ensures Inv(Apply(w, step))
  {
    var v := Apply(w, step);
    assert v.letters.Keys == w.letters.Keys && v.record == w.record && v.mission == w.mission;
    SameLetters(w, v);
    EarnSeen(w, step);
    forall id <- v.letters ensures Covered(v, id) {
      assert Covered(w, id);
    }
  }

  predicate OnMission(step: Step) { !step.Look? && !step.Send? && !step.Issue? && !step.Earn? }

  lemma MissionCovers(w: World, step: Step, id: string)
    requires Inv(w) && Enabled(w, step) && Guarded(w, step) && OnMission(step) && id in w.letters
    ensures Covered(Apply(w, step), id)
  {
    assert Covered(w, id);
  }

  lemma MissionWire(w: World, step: Step)
    requires Inv(w) && Enabled(w, step) && OnMission(step)
    ensures WireTrue(Apply(w, step)) && MissionTrue(Apply(w, step))
  {
  }

  lemma MissionSeen(w: World, step: Step)
    requires SeenTrue(w) && Enabled(w, step) && OnMission(step)
    ensures SeenTrue(Apply(w, step))
  {
  }

  /** A mission lets go of an unanswered request only after its last copy is due. */
  lemma MissionLate(w: World, step: Step)
    requires Inv(w) && Enabled(w, step) && OnMission(step) && Punctual(w.net)
    ensures NoLateRequest(Apply(w, step))
  {
    var v := Apply(w, step);
    forall asked <- v.wire ensures Live(v, asked) ==> Own(v, asked) {
      assert asked in w.wire;
    }
  }

  lemma MissionKeepsInv(w: World, step: Step)
    requires Inv(w) && Enabled(w, step) && Guarded(w, step) && OnMission(step)
    ensures Inv(Apply(w, step))
  {
    var v := Apply(w, step);
    assert v.letters == w.letters && v.record == w.record;
    SameLetters(w, v);
    MissionSeen(w, step);
    MissionWire(w, step);
    if Punctual(w.net) {
      MissionLate(w, step);
    }
    forall id <- v.letters ensures Covered(v, id) {
      MissionCovers(w, step, id);
    }
  }

  lemma StepKeepsInv(w: World, step: Step)
    requires Inv(w) && Enabled(w, step) && Guarded(w, step)
    ensures Inv(Apply(w, step))
  {
    match step
    case Look(pass) => LookKeepsInv(w, pass);
    case Send(_, _, _) => SendKeepsInv(w, step);
    case Issue(_, _, _) => IssueKeepsInv(w, step);
    case Earn(_, _) => EarnKeepsInv(w, step);
    case _ => MissionKeepsInv(w, step);
  }

  /** The record keeps every charge exactly as long as each step is guarded. */
  lemma AccountedExactly(w: World, step: Step)
    requires Inv(w) && Enabled(w, step)
    ensures Accounted(Apply(w, step)) <==> Guarded(w, step)
  {
    if Guarded(w, step) {
      StepKeepsInv(w, step);
    } else {
      var id := match step
        case Look(pass) => MissionPending(w.record.pending, w.mission).id
        case Absent => w.effect.value
        case Issue(_, id, _) => id;
      assert id in Apply(w, step).letters && !Covered(Apply(w, step), id);
    }
  }

  lemma EffectSeen(w: World)
    requires Inv(w) && w.mission.Sent? && Punctual(w.net)
    requires w.asked.createdAt + REPLAY_WINDOW <= w.seen.answeredAt
    ensures w.effect.Some? ==> w.effect.value in w.seen.known
  {
  }

  /** On a punctual network the clock alone proves that a request missing from a
      complete list answered after its window has no letter and will get none. */
  lemma AbsenceSound(w: World)
    requires Inv(w) && Enabled(w, Absent) && Careful(w, Absent) && Punctual(w.net)
    ensures w.effect.None?
    ensures forall asked <- w.wire :: !Live(w, asked)
  {
    EffectSeen(w);
    forall asked | asked in w.wire ensures !Live(w, asked) {
      assert Live(w, asked) ==> Own(w, asked);
    }
  }

  lemma CarefulIsGuarded(w: World, step: Step)
    requires Inv(w) && Enabled(w, step) && Careful(w, step) && Punctual(w.net)
    ensures Guarded(w, step)
  {
    if step.Absent? {
      AbsenceSound(w);
    }
  }

  lemma StartInv(net: Network)
    ensures Inv(Start(net))
  {
  }

  lemma {:induction false} RunKeepsInv(w: World, steps: seq<Step>)
    requires Inv(w) && Legal(w, steps) && CarefulRun(w, steps) && Punctual(w.net)
    ensures Inv(After(w, steps))
    decreases |steps|
  {
    if steps != [] {
      CarefulIsGuarded(w, steps[0]);
      StepKeepsInv(w, steps[0]);
      RunKeepsInv(Apply(w, steps[0]), steps[1..]);
    }
  }

  /** The loss limit and the single marque at risk, in every careful run. */
  lemma LossBounded(net: Network, steps: seq<Step>)
    requires Legal(Start(net), steps) && CarefulRun(Start(net), steps) && Punctual(net)
    ensures Loss(After(Start(net), steps)) <= LOSS_LIMIT
    ensures OneUnsettled(After(Start(net), steps))
  {
    StartInv(net);
    RunKeepsInv(Start(net), steps);
  }
}
