/** The durable action protocol: a mission stages an immutable request, journals
    it, sends it under its own idempotency key, and then consumes, reconciles or
    retires it. Every database write and every observable event is one step, so a
    process may stop between any two of them. */
module Journal {
  import opened Options
  import opened Runs
  import opened Upstream

  const MAX_ATTEMPTS := 4

  /** Stands for the hash of the same fields, which is taken to be injective. */
  datatype ActionId = ActionId(generation: string, stage: string, sequence: nat)

  datatype Kind = Financial | Control | Precondition | Terms | QuoteIncrease

  datatype State =
    | Pending
    | Complete(status: int)
    | NeverSent(kind: Kind)
    // Later evidence that settles a request whose own outcome was lost.
    | Authoritative(applied: bool)

  datatype Row = Row(request: Request, state: State, createdAt: int)

  /** The capture fences: one counter per kind of invalidating stream event. */
  datatype Epochs = Epochs(financial: nat, control: nat)

  datatype Action = Action(id: ActionId, request: Request, session: nat, epochs: Epochs)

  // Retained stands for bulletin, rename, loan-bridge and futures controls, Exit for the
  // maintenance trip offshore: the two kinds with their own retirement rules.
  datatype MissionKind = Trade | Retained | Exit

  datatype Mission = Mission(
    generation: string,
    kind: MissionKind,
    action: Option<Action>,
    sequence: nat,
    cooldownUntil: int,
    lastAction: Option<ActionId>)

  /** The volatile part of a dispatch: what this process has done so far. */
  datatype Sender = Idle | Sending(ship: string, id: ActionId, first: bool, attempts: nat)

  type Packet = Message<ActionId>

  /** The game's own records, as the server showed them at one moment. */
  datatype View = View(readAt: int, answeredAt: int, log: map<ActionId, Entry>)

  /** `missions` and `rows` are durable, `log` is the server's, `wire` is in flight.
      `sender`, `session`, the event counters `captured` and `published`, `reading` (a
      list asked for) and `view` (its answer) belong to the process. The last four
      fields only record history. */
  datatype World = World(
    net: Network,
    missions: map<string, Mission>,
    rows: map<ActionId, Row>,
    log: map<ActionId, Entry>,
    wire: set<Packet>,
    now: int,
    session: nat,
    captured: Epochs,
    published: Epochs,
    reading: Option<View>,
    view: Option<View>,
    sender: Sender,
    sent: set<Packet>,
    unsent: set<ActionId>,
    survivors: set<ActionId>,
    generations: set<string>)

  function Start(net: Network): World {
    World(net, map[], map[], map[], {}, 0, 0, Epochs(0, 0), Epochs(0, 0), None, None, Idle, {}, {}, {}, {})
  }

  datatype Step =
    | Open(ship: string, generation: string, kind: MissionKind)
    | Stage(ship: string, stage: string, request: Request)
    | Rebind(ship: string)
    | RetireUnsent(ship: string, until: int)
    | Begin(ship: string)
    | Resume(ship: string)
    | Transport
    | Veto(reason: Kind)
    | Settle
    | Observe(ship: string, applied: bool)
    | Postpone(until: int)
    | Release
    | Consume(ship: string, until: int)
    | Close(ship: string)
    | Crash
    | Tick(elapsed: nat)
    | Publish(control: bool)
    | Capture(handled: Epochs)
    | Read
    | Answer
    | Deliver(packet: Packet, status: int)
    | Lose(packet: Packet)

  function Max(a: int, b: int): int { if a < b then b else a }

  predicate Attached(w: World, ship: string) { ship in w.missions && w.missions[ship].action.Some? }

  function Current(w: World, ship: string): Action
    requires Attached(w, ship)
  {
    w.missions[ship].action.value
  }

  /** Proof that nothing was transported: no row, or a row closed by a local veto. */
  predicate KnownUnsent(w: World, id: ActionId) { id !in w.rows || w.rows[id].state.NeverSent? }

  predicate FundsValid(w: World, action: Action) {
    && action.session == w.session
    && action.epochs.financial == w.captured.financial == w.published.financial
  }

  predicate ControlValid(w: World, action: Action) {
    action.epochs.control == w.captured.control == w.published.control
  }

  predicate Shows(view: View, id: ActionId) { id in view.log && view.log[id].applied != [] }

  predicate Expired(row: Row, at: int) { row.createdAt + REPLAY_WINDOW <= at }

  predicate InWindow(row: Row, now: int) { now < row.createdAt + REPLAY_WINDOW - CUTOFF }

  predicate MayTransport(w: World) {
    && w.sender.Sending?
    && w.sender.attempts < MAX_ATTEMPTS
    && w.sender.id in w.rows
    && w.rows[w.sender.id].state.Pending?
    && InWindow(w.rows[w.sender.id], w.now)
    && (w.sender.attempts == 0 ==>
          && Attached(w, w.sender.ship)
          && w.missions[w.sender.ship].cooldownUntil <= w.now
          && if w.sender.first
             then FundsValid(w, Current(w, w.sender.ship)) && ControlValid(w, Current(w, w.sender.ship))
             else w.captured.control == w.published.control)
  }

  predicate Enabled(w: World, step: Step) {
    match step
    case Open(ship, generation, kind) => ship !in w.missions && generation !in w.generations
    case Stage(ship, stage, request) =>
      && w.sender.Idle?
      && ship in w.missions
      && w.missions[ship].action.None?
      && w.captured == w.published
    case Rebind(ship) =>
      w.sender.Idle? && Attached(w, ship) && w.missions[ship].kind.Retained? && Current(w, ship).id !in w.rows
    case RetireUnsent(ship, until) => w.sender.Idle? && Attached(w, ship) && KnownUnsent(w, Current(w, ship).id)
    case Begin(ship) =>
      && w.sender.Idle?
      && Attached(w, ship)
      && Current(w, ship).id !in w.rows
      && w.missions[ship].cooldownUntil <= w.now
      && FundsValid(w, Current(w, ship))
      && ControlValid(w, Current(w, ship))
    case Resume(ship) =>
      && w.sender.Idle?
      && Attached(w, ship)
      && Current(w, ship).id in w.rows
      && w.rows[Current(w, ship).id].state.Pending?
      && InWindow(w.rows[Current(w, ship).id], w.now)
    case Transport => MayTransport(w)
    case Veto(reason) => w.sender.Sending? && w.sender.first && w.sender.attempts == 0 && w.sender.id in w.rows
    case Settle =>
      && w.sender.Sending?
      && 0 < w.sender.attempts
      && w.sender.id in w.rows
      && w.sender.id in w.log
    case Observe(ship, applied) =>
      // Records are truthful. That they lack the request proves something only when
      // they were answered after its replay window.
      && w.sender.Idle?
      && Attached(w, ship)
      && Current(w, ship).id in w.rows
      && w.rows[Current(w, ship).id].state.Pending?
      && w.view.Some?
      && (if applied then Shows(w.view.value, Current(w, ship).id)
          else !Shows(w.view.value, Current(w, ship).id)
               && Expired(w.rows[Current(w, ship).id], w.view.value.answeredAt))
    case Postpone(until) => w.sender.Sending? && w.sender.ship in w.missions
    case Release => w.sender.Sending?
    case Consume(ship, until) =>
      && w.sender.Idle?
      && Attached(w, ship)
      && Current(w, ship).id in w.rows
      && (w.rows[Current(w, ship).id].state.Complete? || w.rows[Current(w, ship).id].state.Authoritative?)
    case Close(ship) =>
      && w.sender.Idle?
      && ship in w.missions
      && (w.missions[ship].action.Some? ==>
            Current(w, ship).id in w.rows ==> !w.rows[Current(w, ship).id].state.Pending?)
    case Crash => true
    case Tick(elapsed) => true
    case Publish(control) => true
    case Capture(handled) =>
      // The fences of the events handled so far; later ones may already be published.
      && w.sender.Idle?
      && w.captured.financial <= handled.financial <= w.published.financial
      && w.captured.control <= handled.control <= w.published.control
    case Read => w.sender.Idle?
    case Answer => w.sender.Idle? && w.reading.Some? && w.now <= w.reading.value.readAt + w.net.lag
    case Deliver(packet, status) =>
      packet in w.wire && w.now <= packet.startedAt + w.net.flight && (Succeeded(status) || Refused(status))
    case Lose(packet) => packet in w.wire
  }

  function Apply(w: World, step: Step): World
    requires Enabled(w, step)
  {
    World(w.net, NextMissions(w, step), NextRows(w, step), NextLog(w, step), NextWire(w, step),
          NextNow(w, step), NextSession(w, step), NextCaptured(w, step), NextPublished(w, step),
          NextReading(w, step), NextView(w, step), NextSender(w, step),
          w.sent + Launched(w, step), w.unsent + Retired(w, step), NextSurvivors(w, step),
          if step.Open? then w.generations + {step.generation} else w.generations)
  }

  function NextMissions(w: World, step: Step): map<string, Mission>
    requires Enabled(w, step)
  {
    if step.Close? then w.missions - {step.ship}
    else if Touched(w, step).Some? then w.missions[Touched(w, step).value := NextMission(w, step)]
    else w.missions
  }

  /** The mission a step rewrites, if any. */
  function Touched(w: World, step: Step): Option<string>
    requires Enabled(w, step)
  {
    match step
    case Open(ship, _, _) => Some(ship)
    case Stage(ship, _, _) => Some(ship)
    case Rebind(ship) => Some(ship)
    case RetireUnsent(ship, _) => Some(ship)
    case Postpone(_) => Some(w.sender.ship)
    case Consume(ship, _) => Some(ship)
    case Close(ship) => Some(ship)
    case _ => None
  }

  function NextMission(w: World, step: Step): Mission
    requires Enabled(w, step) && Touched(w, step).Some? && !step.Close?
  {
    match step
    case Open(_, generation, kind) => Mission(generation, kind, None, 0, 0, None)
    case Stage(ship, stage, request) =>
      var m := w.missions[ship];
      m.(action := Some(Action(ActionId(m.generation, stage, m.sequence), request, w.session, w.captured)))
    case Rebind(ship) =>
      w.missions[ship].(action := Some(Current(w, ship).(session := w.session, epochs := w.captured)))
    case RetireUnsent(ship, until) =>
      var m := w.missions[ship];
      m.(action := None, sequence := m.sequence + 1, cooldownUntil := Max(m.cooldownUntil, until))
    case Postpone(until) => w.missions[w.sender.ship].(cooldownUntil := until)
    case Consume(ship, until) =>
      var m := w.missions[ship];
      m.(action := None, sequence := m.sequence + 1, cooldownUntil := Max(m.cooldownUntil, until),
         lastAction := Some(m.action.value.id))
  }

  /** The row a step writes, if any. */
  function Written(w: World, step: Step): Option<ActionId>
    requires Enabled(w, step)
  {
    match step
    case Begin(ship) => Some(Current(w, ship).id)
    case Veto(_) => Some(w.sender.id)
    case Settle => Some(w.sender.id)
    case Observe(ship, _) => Some(Current(w, ship).id)
    case _ => None
  }

  function NextRow(w: World, step: Step): Row
    requires Enabled(w, step) && Written(w, step).Some?
  {
    match step
    case Begin(ship) => Row(Current(w, ship).request, Pending, w.now)
    case Veto(reason) => w.rows[w.sender.id].(state := NeverSent(reason))
    case Settle => w.rows[w.sender.id].(state := Complete(w.log[w.sender.id].status))
    case Observe(ship, applied) => w.rows[Current(w, ship).id].(state := Authoritative(applied))
  }

  function NextRows(w: World, step: Step): map<ActionId, Row>
    requires Enabled(w, step)
  {
    if Written(w, step).Some? then w.rows[Written(w, step).value := NextRow(w, step)] else w.rows
  }

  function NextLog(w: World, step: Step): map<ActionId, Entry>
    requires Enabled(w, step)
  {
    if step.Deliver? then Receive(w.log, step.packet, w.now, step.status) else w.log
  }

  /** The packets a step puts on the wire. */
  function Launched(w: World, step: Step): set<Packet>
    requires Enabled(w, step)
  {
    if step.Transport? then {Message(w.sender.id, w.rows[w.sender.id].request, w.now)} else {}
  }

  function NextWire(w: World, step: Step): set<Packet>
    requires Enabled(w, step)
  {
    if step.Deliver? || step.Lose? then w.wire - {step.packet} else w.wire + Launched(w, step)
  }

  function NextNow(w: World, step: Step): int { if step.Tick? then w.now + step.elapsed else w.now }

  function NextSession(w: World, step: Step): nat { if step.Crash? then w.session + 1 else w.session }

  // A new process counts its events from zero.
  function NextCaptured(w: World, step: Step): Epochs {
    match step
    case Capture(handled) => handled
    case Crash => Epochs(0, 0)
    case _ => w.captured
  }

  function NextPublished(w: World, step: Step): Epochs {
    match step
    case Publish(true) => w.published.(control := w.published.control + 1)
    case Publish(false) => w.published.(financial := w.published.financial + 1)
    case Crash => Epochs(0, 0)
    case _ => w.published
  }

  function NextReading(w: World, step: Step): Option<View> {
    match step
    case Capture(_) => None
    case Read => Some(View(w.now, w.now, w.log))
    case Answer => None
    case Crash => None
    case _ => w.reading
  }

  function NextView(w: World, step: Step): Option<View>
    requires Enabled(w, step)
  {
    match step
    case Capture(_) => None
    case Answer => Some(w.reading.value.(answeredAt := w.now))
    case Crash => None
    case _ => w.view
  }

  function NextSender(w: World, step: Step): Sender
    requires Enabled(w, step)
  {
    match step
    case Begin(ship) => Sending(ship, Current(w, ship).id, true, 0)
    case Resume(ship) => Sending(ship, Current(w, ship).id, false, 0)
    case Transport => w.sender.(attempts := w.sender.attempts + 1)
    case Veto(_) => Idle
    case Settle => Idle
    case Postpone(_) => Idle
    case Release => Idle
    case Crash => Idle
    case _ => w.sender
  }

  /** The identities a step lets go of as known unsent. */
  function Retired(w: World, step: Step): set<ActionId>
    requires Enabled(w, step)
  {
    match step
    case RetireUnsent(ship, _) => {Current(w, ship).id}
    case Close(ship) =>
      if Attached(w, ship) && KnownUnsent(w, Current(w, ship).id) then {Current(w, ship).id} else {}
    case _ => {}
  }

  function NextSurvivors(w: World, step: Step): set<ActionId> {
    if step.Crash? then w.survivors + set id | id in w.rows && w.rows[id].state.Pending? else w.survivors
  }

  /** A run is any sequence of steps, each enabled where it happens. */
  ghost predicate Legal(net: Network, steps: seq<Step>)
    decreases |steps|, 0
  {
    steps == [] || (Legal(net, Front(steps)) && Enabled(After(net, Front(steps)), Last(steps)))
  }

  ghost function After(net: Network, steps: seq<Step>): World
    requires Legal(net, steps)
    decreases |steps|, 1
  {
    if steps == [] then Start(net) else Apply(After(net, Front(steps)), Last(steps))
  }

  ghost predicate Next(w: World, step: Step, v: World) { Enabled(w, step) && v == Apply(w, step) }

  ghost predicate Ran(net: Network, steps: seq<Step>, worlds: seq<World>, w: World) {
    Passes(Start(net), Next, steps, worlds) && Last(worlds) == w
  }

  lemma RunsOn(net: Network, steps: seq<Step>, worlds: seq<World>, w: World, step: Step)
    requires Ran(net, steps, worlds, w) && Enabled(w, step)
    ensures Ran(net, steps + [step], worlds + [Apply(w, step)], Apply(w, step))
    ensures Sends(steps + [step]) == Sends(steps) + if step.Transport? then 1 else 0
  {
    PassesOn(Start(net), Next, steps, worlds, step, Apply(w, step));
    assert Front(steps + [step]) == steps;
  }

  lemma {:induction false} RanLegal(net: Network, steps: seq<Step>, worlds: seq<World>, w: World)
    requires Ran(net, steps, worlds, w)
    ensures Legal(net, steps) && After(net, steps) == w
    decreases |steps|
  {
    if steps != [] {
      PassesBefore(Start(net), Next, steps, worlds);
      RanLegal(net, Front(steps), Front(worlds), Last(Front(worlds)));
    }
  }

  /** The transports in a run. */
  function Sends(steps: seq<Step>): nat
    decreases |steps|
  {
    if steps == [] then 0 else Sends(Front(steps)) + if Last(steps).Transport? then 1 else 0
  }

  lemma Then(net: Network, steps: seq<Step>, step: Step)
    requires Legal(net, steps) && Enabled(After(net, steps), step)
    ensures Legal(net, steps + [step]) && After(net, steps + [step]) == Apply(After(net, steps), step)
  {
    assert Front(steps + [step]) == steps && Last(steps + [step]) == step;
  }

  // ---------------------------------------------------------------- invariant

  /** Whatever was transported was journaled first, unchanged and in time. */
  ghost predicate SentSound(w: World) {
    && w.wire <= w.sent
    && forall packet <- w.sent ::
         && packet.id in w.rows
         && packet.request == w.rows[packet.id].request
         && !w.rows[packet.id].state.NeverSent?
         && w.rows[packet.id].createdAt <= packet.startedAt <= w.now
         && InWindow(w.rows[packet.id], packet.startedAt)
  }

  ghost predicate Transported(w: World, id: ActionId) {
    exists packet <- w.sent :: packet.id == id
  }

  /** The server decided this key once, on the journaled request and in time. */
  ghost predicate EntryOf(w: World, id: ActionId)
    requires id in w.log
  {
    && Transported(w, id)
    && id in w.rows
    && w.rows[id].createdAt <= w.log[id].seenAt <= w.now
    && w.log[id].seenAt < w.rows[id].createdAt + REPLAY_WINDOW - CUTOFF + w.net.flight
    && DecidedOnce(w.log[id], w.rows[id].request)
  }

  ghost predicate LogSound(w: World) { forall id <- w.log :: EntryOf(w, id) }

  ghost predicate OutcomeOf(w: World, id: ActionId)
    requires id in w.rows
  {
    match w.rows[id].state
    case Complete(status) => id in w.log && w.log[id].status == status
    case Authoritative(true) => id in w.log && w.log[id].applied != []
    case Authoritative(false) =>
      Expired(w.rows[id], w.now) && (Punctual(w.net) && id in w.log ==> w.log[id].applied == [])
    case _ => true
  }

  /** A view shows what the server knew when it was read, and no more. */
  ghost predicate Sees(w: World, view: View) {
    && view.readAt <= view.answeredAt <= w.now
    && view.answeredAt <= view.readAt + w.net.lag
    && (forall id <- view.log :: id in w.log && w.log[id] == view.log[id])
    && forall id <- w.log :: id in view.log || view.readAt <= w.log[id].seenAt
  }

  ghost predicate ViewsSound(w: World) {
    && (w.view.Some? ==> Sees(w, w.view.value))
    && (w.reading.Some? ==> Sees(w, w.reading.value))
  }

  ghost predicate OutcomeSound(w: World) {
    forall id <- w.rows :: OutcomeOf(w, id)
  }

  ghost predicate MissionsSound(w: World) {
    && (forall ship <- w.missions :: w.missions[ship].generation in w.generations)
    && (forall ship <- w.missions, other <- w.missions ::
          w.missions[ship].generation == w.missions[other].generation ==> ship == other)
    && forall ship <- w.missions | w.missions[ship].action.Some? ::
         && w.missions[ship].action.value.id.generation == w.missions[ship].generation
         && w.missions[ship].action.value.id.sequence == w.missions[ship].sequence
  }

  /** A journaled identity is either spent or the one its mission is working on. */
  ghost predicate Spent(w: World, id: ActionId) {
    && id.generation in w.generations
    && forall ship <- w.missions | w.missions[ship].generation == id.generation ::
         id.sequence < w.missions[ship].sequence
  }

  ghost predicate Working(w: World, id: ActionId) {
    exists ship <- w.missions :: w.missions[ship].action.Some? && w.missions[ship].action.value.id == id
  }

  ghost predicate RowsSound(w: World) {
    && (forall id <- w.rows :: w.rows[id].createdAt <= w.now)
    && (forall id <- w.rows :: Working(w, id) || (Spent(w, id) && !w.rows[id].state.Pending?))
    && forall ship <- w.missions | w.missions[ship].action.Some? && w.missions[ship].action.value.id in w.rows ::
         w.rows[w.missions[ship].action.value.id].request == w.missions[ship].action.value.request
  }

  ghost predicate UnsentSound(w: World) {
    forall id <- w.unsent :: Spent(w, id) && KnownUnsent(w, id)
  }

  ghost predicate SenderSound(w: World) {
    && (w.sender.Sending? ==>
          && Attached(w, w.sender.ship)
          && Current(w, w.sender.ship).id == w.sender.id
          && w.sender.id in w.rows
          && w.rows[w.sender.id].state.Pending?
          && (w.sender.first ==> w.sender.id !in w.survivors)
          && (w.sender.first && w.sender.attempts == 0 ==> !Transported(w, w.sender.id)))
    && forall id <- w.survivors :: id in w.rows && !w.rows[id].state.NeverSent?
  }

  /** What is on its way to the server and what has arrived. */
  ghost predicate Traffic(w: World) {
    w.net.flight <= REMEMBERED && SentSound(w) && LogSound(w) && SenderSound(w)
  }

  /** Who works on what. */
  ghost predicate Owned(w: World) { MissionsSound(w) && RowsSound(w) && SenderSound(w) }

  ghost predicate Inv(w: World) {
    Traffic(w) && ViewsSound(w) && OutcomeSound(w) && Owned(w) && UnsentSound(w)
  }

  lemma RowsKept(w: World, step: Step, id: ActionId)
    requires Enabled(w, step) && Written(w, step) != Some(id)
    ensures id in Apply(w, step).rows <==> id in w.rows
    ensures id in w.rows ==> Apply(w, step).rows[id] == w.rows[id]
  {
  }

  /** A row changes once, from pending, and never its request. */
  lemma SettledIsFinal(w: World, step: Step, id: ActionId)
    requires SenderSound(w) && Enabled(w, step) && id in w.rows
    ensures id in Apply(w, step).rows
    ensures Apply(w, step).rows[id].request == w.rows[id].request
            && Apply(w, step).rows[id].createdAt == w.rows[id].createdAt
    ensures !w.rows[id].state.Pending? ==> Apply(w, step).rows[id] == w.rows[id]
    ensures Transported(w, id) && !w.rows[id].state.NeverSent? ==> !Apply(w, step).rows[id].state.NeverSent?
  {
    if Written(w, step) != Some(id) {
      RowsKept(w, step, id);
    }
  }

  lemma RowNew(w: World, step: Step, id: ActionId)
    requires Enabled(w, step) && id !in w.rows && id in Apply(w, step).rows
    ensures step.Begin? && Current(w, step.ship).id == id
    ensures Apply(w, step).rows[id] == Row(Current(w, step.ship).request, Pending, w.now)
  {
    if Written(w, step) != Some(id) {
      RowsKept(w, step, id);
    }
  }

  lemma NetKept(w: World, step: Step)
    requires Enabled(w, step)
    ensures Apply(w, step).net == w.net
  {
  }

  lemma TimePasses(w: World, step: Step)
    requires Enabled(w, step)
    ensures w.now <= Apply(w, step).now
  {
  }

  lemma SentGrows(w: World, step: Step)
    requires Enabled(w, step)
    ensures Apply(w, step).sent == w.sent + Launched(w, step)
    ensures Apply(w, step).wire <= w.wire + Launched(w, step)
  {
  }

  lemma StepKeepsSent(w: World, step: Step)
    requires SentSound(w) && RowsSound(w) && SenderSound(w) && Enabled(w, step)
    ensures SentSound(Apply(w, step))
  {
    var v := Apply(w, step);
    SentGrows(w, step);
    TimePasses(w, step);
    forall packet | packet in w.sent
      ensures packet.id in v.rows && packet.request == v.rows[packet.id].request && !v.rows[packet.id].state.NeverSent?
              && v.rows[packet.id].createdAt == w.rows[packet.id].createdAt
    {
      SettledIsFinal(w, step, packet.id);
    }
  }

  /** The replay window and the flight time together end before the server forgets. */
  lemma ArrivesRemembered(w: World, packet: Packet)
    requires Traffic(w) && packet in w.wire && w.now <= packet.startedAt + w.net.flight && packet.id in w.log
    ensures w.now < w.log[packet.id].seenAt + SERVER_RETENTION
  {
    assert packet in w.sent;
  }

  lemma StepKeepsTransported(w: World, step: Step, id: ActionId)
    requires Enabled(w, step) && Transported(w, id)
    ensures Transported(Apply(w, step), id)
  {
    var packet :| packet in w.sent && packet.id == id;
    assert packet in Apply(w, step).sent;
  }

  /** A delivery changes the server's memory only of a key it has not seen. */
  lemma DeliveryDecidesOnce(w: World, step: Step, id: ActionId)
    requires Traffic(w) && Enabled(w, step) && id in w.log
    ensures id in Apply(w, step).log && Apply(w, step).log[id] == w.log[id]
  {
    if step.Deliver? && step.packet.id == id {
      ArrivesRemembered(w, step.packet);
      assert Receive(w.log, step.packet, w.now, step.status) == w.log;
    } else {
      LogGrows(w, step, id);
    }
  }

  lemma EntryKept(w: World, step: Step, id: ActionId)
    requires Traffic(w) && Enabled(w, step) && id in w.log
    ensures id in Apply(w, step).log && EntryOf(Apply(w, step), id)
  {
    assert EntryOf(w, id);
    DeliveryDecidesOnce(w, step, id);
    SettledIsFinal(w, step, id);
    StepKeepsTransported(w, step, id);
    TimePasses(w, step);
    NetKept(w, step);
  }

  lemma EntryNew(w: World, step: Step, id: ActionId)
    requires Traffic(w) && Enabled(w, step) && id !in w.log && id in Apply(w, step).log
    ensures EntryOf(Apply(w, step), id)
  {
    LogGrows(w, step, id);
    assert step.packet in w.sent;
    StepKeepsTransported(w, step, id);
    assert [] + [step.packet.request] == [step.packet.request];
  }

  lemma StepKeepsLog(w: World, step: Step)
    requires Traffic(w) && Enabled(w, step)
    ensures LogSound(Apply(w, step))
  {
    forall id <- Apply(w, step).log ensures EntryOf(Apply(w, step), id) {
      if id in w.log {
        EntryKept(w, step, id);
      } else {
        EntryNew(w, step, id);
      }
    }
  }

  /** The server's memory only grows, and what is new in it was seen just now. */
  ghost predicate LogGrew(w: World, v: World) {
    && w.now <= v.now && v.net == w.net
    && (forall id <- w.log :: id in v.log && v.log[id] == w.log[id])
    && forall id <- v.log :: id in w.log || v.log[id].seenAt == w.now
  }

  lemma LogExtends(w: World, step: Step)
    requires Traffic(w) && Enabled(w, step)
    ensures LogGrew(w, Apply(w, step))
  {
    forall id | id in w.log ensures id in Apply(w, step).log && Apply(w, step).log[id] == w.log[id] {
      DeliveryDecidesOnce(w, step, id);
    }
    forall id | id in Apply(w, step).log ensures id in w.log || Apply(w, step).log[id].seenAt == w.now {
      LogGrows(w, step, id);
    }
    TimePasses(w, step);
    NetKept(w, step);
  }

  lemma SeesStill(w: World, v: World, view: View)
    requires Sees(w, view) && LogGrew(w, v)
    ensures Sees(v, view)
  {
  }

  lemma StepKeepsViews(w: World, step: Step)
    requires ViewsSound(w) && Enabled(w, step) && LogGrew(w, Apply(w, step))
    ensures ViewsSound(Apply(w, step))
  {
    var v := Apply(w, step);
    if !step.Read? && !step.Answer? {
      assert v.view in {w.view, None} && v.reading in {w.reading, None};
      if v.view.Some? {
        SeesStill(w, v, w.view.value);
      }
      if v.reading.Some? {
        SeesStill(w, v, w.reading.value);
      }
    }
  }

  /** On a punctual network no copy of a request is left to arrive once the records
      answered after its window lack it. */
  lemma AbsenceStays(w: World, step: Step, id: ActionId)
    requires Traffic(w) && Enabled(w, step) && Punctual(w.net) && id in w.rows && Expired(w.rows[id], w.now)
    requires id in w.log ==> w.log[id].applied == []
    ensures id in Apply(w, step).log ==> Apply(w, step).log[id].applied == []
  {
    LogGrows(w, step, id);
    if id in w.log {
      DeliveryDecidesOnce(w, step, id);
    } else if step.Deliver? {
      assert step.packet in w.sent;
    }
  }

  lemma AbsenceProved(w: World, ship: string)
    requires Traffic(w) && ViewsSound(w) && Enabled(w, Observe(ship, false)) && Punctual(w.net)
    ensures Current(w, ship).id in w.log ==> w.log[Current(w, ship).id].applied == []
  {
    assert Sees(w, w.view.value);
  }

  lemma LogGrows(w: World, step: Step, id: ActionId)
    requires Enabled(w, step)
    ensures (step.Deliver? && step.packet.id == id) || (id in Apply(w, step).log <==> id in w.log)
    ensures !(step.Deliver? && step.packet.id == id) && id in w.log ==> Apply(w, step).log[id] == w.log[id]
  {
  }

  lemma StepKeepsOutcome(w: World, step: Step, id: ActionId)
    requires Traffic(w) && ViewsSound(w) && OutcomeSound(w) && Enabled(w, step) && id in Apply(w, step).rows
    ensures OutcomeOf(Apply(w, step), id)
  {
    if id !in w.rows {
      RowNew(w, step, id);
    } else if w.rows[id].state.Pending? {
      if Written(w, step) == Some(id) {
        WrittenOutcome(w, step);
      } else {
        RowsKept(w, step, id);
      }
    } else {
      SettledOutcome(w, step, id);
    }
  }

  lemma SettledOutcome(w: World, step: Step, id: ActionId)
    requires Traffic(w) && OutcomeSound(w) && Enabled(w, step) && id in w.rows && !w.rows[id].state.Pending?
    ensures id in Apply(w, step).rows && OutcomeOf(Apply(w, step), id)
  {
    assert OutcomeOf(w, id);
    SettledIsFinal(w, step, id);
    if id in w.log {
      DeliveryDecidesOnce(w, step, id);
    }
    TimePasses(w, step);
    NetKept(w, step);
    if w.rows[id].state == Authoritative(false) && Punctual(w.net) {
      AbsenceStays(w, step, id);
    }
  }

  lemma WrittenOutcome(w: World, step: Step)
    requires Traffic(w) && ViewsSound(w) && Enabled(w, step) && Written(w, step).Some?
    ensures Written(w, step).value in Apply(w, step).rows && OutcomeOf(Apply(w, step), Written(w, step).value)
  {
    if step.Observe? {
      assert Sees(w, w.view.value);
      if !step.applied && Punctual(w.net) {
        AbsenceProved(w, step.ship);
      }
    }
  }

  lemma StepKeepsOutcomes(w: World, step: Step)
    requires Traffic(w) && ViewsSound(w) && OutcomeSound(w) && Enabled(w, step)
    ensures OutcomeSound(Apply(w, step))
  {
    forall id <- Apply(w, step).rows ensures OutcomeOf(Apply(w, step), id) { StepKeepsOutcome(w, step, id); }
  }

  lemma OtherMissionsKept(w: World, step: Step, ship: string)
    requires Enabled(w, step) && Touched(w, step) != Some(ship)
    ensures ship in Apply(w, step).missions <==> ship in w.missions
    ensures ship in w.missions ==> Apply(w, step).missions[ship] == w.missions[ship]
  {
  }

  /** A mission keeps its generation, and its sequence only rises. */
  lemma MissionGrows(w: World, step: Step, ship: string)
    requires Enabled(w, step) && ship in w.missions && ship in Apply(w, step).missions
    ensures Apply(w, step).missions[ship].generation == w.missions[ship].generation
    ensures w.missions[ship].sequence <= Apply(w, step).missions[ship].sequence
  {
    if Touched(w, step) != Some(ship) {
      OtherMissionsKept(w, step, ship);
    }
  }

  lemma MissionNew(w: World, step: Step, ship: string)
    requires Enabled(w, step) && ship !in w.missions && ship in Apply(w, step).missions
    ensures step.Open? && Apply(w, step).missions[ship] == Mission(step.generation, step.kind, None, 0, 0, None)
    ensures step.generation !in w.generations && step.generation in Apply(w, step).generations
  {
    if Touched(w, step) != Some(ship) {
      OtherMissionsKept(w, step, ship);
    }
  }

  lemma GenerationsGrow(w: World, step: Step)
    requires Enabled(w, step)
    ensures w.generations <= Apply(w, step).generations
  {
  }

  lemma ActionOwned(w: World, step: Step, ship: string)
    requires MissionsSound(w) && Enabled(w, step) && ship in Apply(w, step).missions
    ensures var m := Apply(w, step).missions[ship];
            m.action.Some? ==> m.action.value.id.generation == m.generation && m.action.value.id.sequence == m.sequence
  {
    if Touched(w, step) != Some(ship) {
      OtherMissionsKept(w, step, ship);
    }
  }

  lemma StepKeepsMissions(w: World, step: Step)
    requires MissionsSound(w) && Enabled(w, step)
    ensures MissionsSound(Apply(w, step))
  {
    var v := Apply(w, step);
    GenerationsGrow(w, step);
    forall ship | ship in v.missions
      ensures if ship in w.missions then v.missions[ship].generation == w.missions[ship].generation
              else v.missions[ship].generation !in w.generations && v.missions[ship].generation in v.generations
                   && step.Open? && step.ship == ship
      ensures v.missions[ship].action.Some? ==>
                && v.missions[ship].action.value.id.generation == v.missions[ship].generation
                && v.missions[ship].action.value.id.sequence == v.missions[ship].sequence
    {
      ActionOwned(w, step, ship);
      if ship in w.missions {
        MissionGrows(w, step, ship);
      } else {
        MissionNew(w, step, ship);
        if Touched(w, step) != Some(ship) {
          OtherMissionsKept(w, step, ship);
        }
      }
    }
  }

  lemma SpentStays(w: World, step: Step, id: ActionId)
    requires Enabled(w, step) && Spent(w, id)
    ensures Spent(Apply(w, step), id)
  {
    var v := Apply(w, step);
    GenerationsGrow(w, step);
    forall ship | ship in v.missions && v.missions[ship].generation == id.generation
      ensures id.sequence < v.missions[ship].sequence
    {
      if ship in w.missions {
        MissionGrows(w, step, ship);
      } else {
        MissionNew(w, step, ship);
      }
    }
  }

  predicate LetsGo(step: Step, ship: string) {
    (step.RetireUnsent? || step.Consume? || step.Close?) && step.ship == ship
  }

  lemma OwnerKept(w: World, step: Step, ship: string)
    requires Enabled(w, step) && Attached(w, ship) && !LetsGo(step, ship)
    ensures Attached(Apply(w, step), ship) && Current(Apply(w, step), ship).id == Current(w, ship).id
  {
    if Touched(w, step) != Some(ship) {
      OtherMissionsKept(w, step, ship);
    }
  }

  lemma OwnerSpent(w: World, step: Step, ship: string)
    requires MissionsSound(w) && Enabled(w, step) && Attached(w, ship) && LetsGo(step, ship)
    ensures
      var v, id := Apply(w, step), Current(w, ship).id;
      Spent(v, id) && (id in v.rows ==> id in w.rows && v.rows[id] == w.rows[id] && !v.rows[id].state.Pending?)
  {
  }

  /** A step ends the work on an identity only by spending it. */
  lemma OwnerKeptOrSpent(w: World, step: Step, ship: string)
    requires MissionsSound(w) && Enabled(w, step) && Attached(w, ship)
    ensures
      var v, id := Apply(w, step), Current(w, ship).id;
      if LetsGo(step, ship)
      then Spent(v, id) && (id in v.rows ==> id in w.rows && v.rows[id] == w.rows[id] && !v.rows[id].state.Pending?)
      else Attached(v, ship) && Current(v, ship).id == id
  {
    if LetsGo(step, ship) {
      OwnerSpent(w, step, ship);
    } else {
      OwnerKept(w, step, ship);
    }
  }

  lemma StepKeepsOwner(w: World, step: Step, id: ActionId)
    requires Owned(w) && Enabled(w, step) && id in Apply(w, step).rows
    ensures Working(Apply(w, step), id) || (Spent(Apply(w, step), id) && !Apply(w, step).rows[id].state.Pending?)
  {
    if Working(w, id) {
      var ship :| ship in w.missions && w.missions[ship].action.Some? && w.missions[ship].action.value.id == id;
      OwnerKeptOrSpent(w, step, ship);
    } else {
      SpentStays(w, step, id);
    }
  }

  lemma RequestOwned(w: World, step: Step, ship: string)
    requires Owned(w) && Enabled(w, step) && Attached(Apply(w, step), ship)
             && Current(Apply(w, step), ship).id in Apply(w, step).rows
    ensures Apply(w, step).rows[Current(Apply(w, step), ship).id].request == Current(Apply(w, step), ship).request
  {
    var v := Apply(w, step);
    var id := Current(v, ship).id;
    if Touched(w, step) == Some(ship) {
      TouchedRequest(w, step, ship);
    } else {
      OtherMissionsKept(w, step, ship);
      if id in w.rows {
        SettledIsFinal(w, step, id);
      } else {
        RowNew(w, step, id);
        SameOwner(w, ship, step.ship);
      }
    }
  }

  lemma SameOwner(w: World, ship: string, other: string)
    requires MissionsSound(w) && Attached(w, ship) && Attached(w, other) && Current(w, ship).id == Current(w, other).id
    ensures ship == other
  {
    assert w.missions[ship].generation == w.missions[other].generation;
  }

  lemma TouchedRequest(w: World, step: Step, ship: string)
    requires Owned(w) && Enabled(w, step) && Touched(w, step) == Some(ship)
    requires Attached(Apply(w, step), ship) && Current(Apply(w, step), ship).id in Apply(w, step).rows
    ensures Apply(w, step).rows[Current(Apply(w, step), ship).id].request == Current(Apply(w, step), ship).request
  {
    assert Apply(w, step).rows == w.rows;
    if step.Stage? {
      StagedIsNew(w, step);
    }
  }

  // A mission stages under an identity that no row has yet.
  lemma StagedIsNew(w: World, step: Step)
    requires Owned(w) && step.Stage? && Enabled(w, step)
    ensures ActionId(w.missions[step.ship].generation, step.stage, w.missions[step.ship].sequence) !in w.rows
  {
    var id := ActionId(w.missions[step.ship].generation, step.stage, w.missions[step.ship].sequence);
    forall ship | ship in w.missions && w.missions[ship].action.Some? ensures w.missions[ship].action.value.id != id {
      assert ship != step.ship;
      assert w.missions[ship].generation != w.missions[step.ship].generation;
    }
    assert !Working(w, id) && !Spent(w, id);
  }

  lemma StepKeepsRows(w: World, step: Step)
    requires Owned(w) && Enabled(w, step)
    ensures RowsSound(Apply(w, step))
  {
    var v := Apply(w, step);
    TimePasses(w, step);
    forall id <- v.rows
      ensures v.rows[id].createdAt <= v.now
      ensures Working(v, id) || (Spent(v, id) && !v.rows[id].state.Pending?)
    {
      StepKeepsOwner(w, step, id);
      if id in w.rows {
        SettledIsFinal(w, step, id);
      } else {
        RowNew(w, step, id);
      }
    }
    forall ship | ship in v.missions && v.missions[ship].action.Some? && v.missions[ship].action.value.id in v.rows
      ensures v.rows[v.missions[ship].action.value.id].request == v.missions[ship].action.value.request
    {
      RequestOwned(w, step, ship);
    }
  }

  lemma SpentNotBegun(w: World, step: Step, id: ActionId)
    requires MissionsSound(w) && Enabled(w, step) && Spent(w, id) && id !in w.rows
    ensures id !in Apply(w, step).rows
  {
    assert step.Begin? ==> Current(w, step.ship).id != id;
    RowsKept(w, step, id);
  }

  lemma UnsentStays(w: World, step: Step, id: ActionId)
    requires Owned(w) && UnsentSound(w) && Enabled(w, step) && id in w.unsent
    ensures KnownUnsent(Apply(w, step), id)
  {
    if id in w.rows {
      SettledIsFinal(w, step, id);
    } else {
      SpentNotBegun(w, step, id);
    }
  }

  lemma UnsentNew(w: World, step: Step, id: ActionId)
    requires Owned(w) && Enabled(w, step) && id in Apply(w, step).unsent && id !in w.unsent
    ensures Spent(Apply(w, step), id) && KnownUnsent(Apply(w, step), id)
  {
    assert step.RetireUnsent? || step.Close?;
    OwnerKeptOrSpent(w, step, step.ship);
  }

  lemma StepKeepsUnsent(w: World, step: Step)
    requires Owned(w) && UnsentSound(w) && Enabled(w, step)
    ensures UnsentSound(Apply(w, step))
  {
    forall id | id in Apply(w, step).unsent ensures Spent(Apply(w, step), id) && KnownUnsent(Apply(w, step), id) {
      if id in w.unsent {
        SpentStays(w, step, id);
        UnsentStays(w, step, id);
      } else {
        UnsentNew(w, step, id);
      }
    }
  }

  lemma SurvivorsStay(w: World, step: Step, id: ActionId)
    requires SenderSound(w) && Enabled(w, step) && id in Apply(w, step).survivors
    ensures id in Apply(w, step).rows && !Apply(w, step).rows[id].state.NeverSent?
  {
    assert id in w.rows && !w.rows[id].state.NeverSent?;
    SettledIsFinal(w, step, id);
    if Written(w, step) == Some(id) {
      assert !step.Veto? || id !in w.survivors;
    } else {
      RowsKept(w, step, id);
    }
  }

  /** While an action is being sent, nothing else writes its row or its mission. */
  lemma SenderKept(w: World, step: Step)
    requires SenderSound(w) && Enabled(w, step) && Apply(w, step).sender.Sending?
    requires !step.Begin? && !step.Resume? && !step.Transport?
    ensures Apply(w, step).sender == w.sender && Apply(w, step).survivors == w.survivors
    ensures Written(w, step).None? && Touched(w, step) != Some(w.sender.ship)
  {
  }

  lemma SendingStays(w: World, step: Step)
    requires SenderSound(w) && Enabled(w, step) && Apply(w, step).sender.Sending?
    requires !step.Begin? && !step.Resume? && !step.Transport?
    ensures SenderSound(Apply(w, step))
  {
    var v := Apply(w, step);
    SenderKept(w, step);
    RowsKept(w, step, w.sender.id);
    OtherMissionsKept(w, step, w.sender.ship);
    SentGrows(w, step);
    forall id <- v.survivors ensures id in v.rows && !v.rows[id].state.NeverSent? {
      RowsKept(w, step, id);
    }
  }

  lemma BeginStarts(w: World, step: Step)
    requires SentSound(w) && SenderSound(w) && Enabled(w, step) && step.Begin?
    ensures SenderSound(Apply(w, step))
  {
    BeginsUnsent(w, Current(w, step.ship).id);
  }

  lemma ResumeStarts(w: World, step: Step)
    requires SenderSound(w) && Enabled(w, step) && step.Resume?
    ensures SenderSound(Apply(w, step))
  {
  }

  lemma TransportContinues(w: World, step: Step)
    requires SenderSound(w) && Enabled(w, step) && step.Transport?
    ensures SenderSound(Apply(w, step))
  {
  }

  lemma BeginsUnsent(w: World, id: ActionId)
    requires SentSound(w) && SenderSound(w) && id !in w.rows
    ensures !Transported(w, id) && id !in w.survivors
  {
  }

  lemma StepKeepsSender(w: World, step: Step)
    requires SentSound(w) && SenderSound(w) && Enabled(w, step)
    ensures SenderSound(Apply(w, step))
  {
    if step.Begin? {
      BeginStarts(w, step);
    } else if step.Resume? {
      ResumeStarts(w, step);
    } else if step.Transport? {
      TransportContinues(w, step);
    } else if Apply(w, step).sender.Sending? {
      SendingStays(w, step);
    } else {
      forall id <- Apply(w, step).survivors
        ensures id in Apply(w, step).rows && !Apply(w, step).rows[id].state.NeverSent?
      {
        SurvivorsStay(w, step, id);
      }
    }
  }

  // ----------------------------------------------------------------- theorems

  lemma {:induction false} EveryRunKeepsInv(net: Network, steps: seq<Step>)
    requires net.flight <= REMEMBERED && Legal(net, steps)
    ensures Inv(After(net, steps)) && After(net, steps).net == net
    decreases |steps|
  {
    if steps != [] {
      var w, step := After(net, Front(steps)), Last(steps);
      EveryRunKeepsInv(net, Front(steps));
      StepKeepsSent(w, step);
      NetKept(w, step);
      StepKeepsLog(w, step);
      LogExtends(w, step);
      StepKeepsViews(w, step);
      StepKeepsOutcomes(w, step);
      StepKeepsMissions(w, step);
      StepKeepsRows(w, step);
      StepKeepsUnsent(w, step);
      StepKeepsSender(w, step);
    }
  }

  /** An action retired as never sent was never transported and has no effect. */
  lemma NeverSentIsTrue(net: Network, steps: seq<Step>, id: ActionId)
    requires net.flight <= REMEMBERED && Legal(net, steps)
    requires id in After(net, steps).unsent
             || (id in After(net, steps).rows && After(net, steps).rows[id].state.NeverSent?)
    ensures !Transported(After(net, steps), id)
    ensures id !in After(net, steps).log
  {
    EveryRunKeepsInv(net, steps);
  }

  /** Every transport under one key carries the journaled request, after it was
      journaled and before the cutoff of its replay window. */
  lemma TransportsAreTheJournaledRequest(net: Network, steps: seq<Step>, packet: Packet)
    requires net.flight <= REMEMBERED && Legal(net, steps) && packet in After(net, steps).sent
    ensures packet.id in After(net, steps).rows
    ensures
      var row := After(net, steps).rows[packet.id];
      packet.request == row.request && row.createdAt <= packet.startedAt < row.createdAt + REPLAY_WINDOW - CUTOFF
  {
    EveryRunKeepsInv(net, steps);
  }

  /** The server applies each key at most once, and exactly the journaled request. */
  lemma AppliedAtMostOnce(net: Network, steps: seq<Step>, id: ActionId)
    requires net.flight <= REMEMBERED && Legal(net, steps) && id in After(net, steps).log
    ensures id in After(net, steps).rows
    ensures After(net, steps).log[id].applied in {[], [After(net, steps).rows[id].request]}
  {
    EveryRunKeepsInv(net, steps);
  }

  /** What the journal says of a settled action is what the server did. */
  lemma SettledAgreesWithServer(net: Network, steps: seq<Step>, id: ActionId)
    requires net.flight <= REMEMBERED && Legal(net, steps) && id in After(net, steps).rows
    ensures
      var w := After(net, steps);
      var effect := id in w.log && w.log[id].applied == [w.rows[id].request];
      match w.rows[id].state
      case Complete(status) => effect <==> Succeeded(status)
      case Authoritative(true) => effect
      case Authoritative(false) => Punctual(net) ==> !effect
      case NeverSent(_) => !effect
      case Pending => true
  {
    EveryRunKeepsInv(net, steps);
    assert OutcomeOf(After(net, steps), id);
  }

  /** A mission has at most one unresolved request, and stages no other beside it. */
  lemma OneUnresolvedRequest(net: Network, steps: seq<Step>, a: ActionId, b: ActionId)
    requires net.flight <= REMEMBERED && Legal(net, steps)
    requires a in After(net, steps).rows && After(net, steps).rows[a].state.Pending?
    ensures b in After(net, steps).rows && After(net, steps).rows[b].state.Pending? ==>
              a.generation == b.generation ==> a == b
    ensures forall ship, stage, request ::
              Enabled(After(net, steps), Stage(ship, stage, request)) ==>
                After(net, steps).missions[ship].generation != a.generation
  {
    EveryRunKeepsInv(net, steps);
    var w := After(net, steps);
    assert Working(w, a);
    if b in w.rows && w.rows[b].state.Pending? && a.generation == b.generation {
      assert Working(w, b);
    }
  }

  /** A request leaves its mission only when it is resolved or known unsent. */
  lemma ReleasedOnlyWhenResolved(net: Network, steps: seq<Step>, ship: string)
    requires net.flight <= REMEMBERED && Legal(net, steps) && steps != [] && Attached(After(net, Front(steps)), ship)
    ensures
      var w, v := After(net, Front(steps)), After(net, steps);
      var id := Current(w, ship).id;
      (Attached(v, ship) && Current(v, ship).id == id) || KnownUnsent(v, id)
          || (id in v.rows && !v.rows[id].state.Pending?)
  {
    EveryRunKeepsInv(net, Front(steps));
    OwnerKeptOrSpent(After(net, Front(steps)), Last(steps), ship);
  }

  lemma {:induction false} PrefixLegal(net: Network, steps: seq<Step>, k: nat)
    requires Legal(net, steps) && k <= |steps|
    ensures Legal(net, steps[..k])
    decreases |steps|
  {
    if k < |steps| {
      assert steps[..k] == Front(steps)[..k];
      PrefixLegal(net, Front(steps), k);
    } else {
      assert steps[..k] == steps;
    }
  }

  /** History never loses a fact, a journaled request never changes, and a
      settled row is final. */
  ghost predicate Extends(w: World, v: World) {
    && w.sent <= v.sent && w.unsent <= v.unsent && w.survivors <= v.survivors
    && w.now <= v.now
    && forall id <- w.rows ::
         && id in v.rows
         && v.rows[id].request == w.rows[id].request
         && v.rows[id].createdAt == w.rows[id].createdAt
         && (!w.rows[id].state.Pending? ==> v.rows[id] == w.rows[id])
  }

  lemma StepExtends(w: World, step: Step)
    requires SenderSound(w) && Enabled(w, step)
    ensures Extends(w, Apply(w, step))
  {
    forall id <- w.rows
      ensures
        && id in Apply(w, step).rows
        && Apply(w, step).rows[id].request == w.rows[id].request
        && Apply(w, step).rows[id].createdAt == w.rows[id].createdAt
        && (!w.rows[id].state.Pending? ==> Apply(w, step).rows[id] == w.rows[id])
    {
      SettledIsFinal(w, step, id);
    }
  }

  lemma {:induction false} RunExtends(net: Network, steps: seq<Step>, k: nat)
    requires net.flight <= REMEMBERED && Legal(net, steps) && k <= |steps|
    ensures Legal(net, steps[..k]) && Extends(After(net, steps[..k]), After(net, steps))
    decreases |steps|
  {
    PrefixLegal(net, steps, k);
    if k < |steps| {
      assert steps[..k] == Front(steps)[..k];
      RunExtends(net, Front(steps), k);
      EveryRunKeepsInv(net, Front(steps));
      StepExtends(After(net, Front(steps)), Last(steps));
    } else {
      assert steps[..k] == steps;
    }
  }

  /** A pending row that survives a crash counts as possibly sent ever after. */
  lemma SurvivorNeverCalledUnsent(net: Network, steps: seq<Step>, k: nat, id: ActionId)
    requires net.flight <= REMEMBERED && Legal(net, steps) && k < |steps| && steps[k].Crash?
    requires Legal(net, steps[..k]) && id in After(net, steps[..k]).rows
             && After(net, steps[..k]).rows[id].state.Pending?
    ensures id in After(net, steps).rows && !After(net, steps).rows[id].state.NeverSent?
            && id !in After(net, steps).unsent
  {
    RunExtends(net, steps, k + 1);
    assert Front(steps[..k + 1]) == steps[..k];
    CrashLeavesSurvivor(After(net, steps[..k]), steps[k], id);
    EveryRunKeepsInv(net, steps);
    SurvivorSound(After(net, steps), id);
  }

  lemma CrashLeavesSurvivor(w: World, step: Step, id: ActionId)
    requires Enabled(w, step) && step.Crash? && id in w.rows && w.rows[id].state.Pending?
    ensures id in Apply(w, step).survivors
  {
  }

  lemma SurvivorSound(w: World, id: ActionId)
    requires UnsentSound(w) && SenderSound(w) && id in w.survivors
    ensures id in w.rows && !w.rows[id].state.NeverSent? && id !in w.unsent
  {
  }

  /** An identity is never journaled twice: once retired or settled it stays so,
      and a later request of the mission gets a new one. */
  lemma IdentityNeverReused(net: Network, steps: seq<Step>, k: nat, id: ActionId)
    requires net.flight <= REMEMBERED && Legal(net, steps) && k <= |steps| && Legal(net, steps[..k])
    ensures id in After(net, steps[..k]).rows ==>
              id in After(net, steps).rows
                  && After(net, steps).rows[id].request == After(net, steps[..k]).rows[id].request
    ensures id in After(net, steps[..k]).unsent ==>
              KnownUnsent(After(net, steps), id) && !Working(After(net, steps), id)
  {
    RunExtends(net, steps, k);
    EveryRunKeepsInv(net, steps);
  }

  /** Journaling always finds either no row or one with the mission's own request. */
  lemma JournalNeverConflicts(net: Network, steps: seq<Step>, ship: string)
    requires net.flight <= REMEMBERED && Legal(net, steps) && Attached(After(net, steps), ship)
    ensures
      var w := After(net, steps);
      Current(w, ship).id in w.rows ==> w.rows[Current(w, ship).id].request == Current(w, ship).request
  {
    EveryRunKeepsInv(net, steps);
  }
}
