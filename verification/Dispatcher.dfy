/** The one process that executes an account's missions. Its methods write the
    mission and the journal step by step; each is proved to make only legal
    protocol steps, whatever the network does and wherever the process dies. */
module Dispatcher {
  import opened Options
  import opened Runs
  import opened Upstream
  import opened Journal

  const RETRY_DELAY := 5

  /** One transport attempt: what happens while it waits for its rate-limit turn,
      what happens while it is under way, and whether an answer came back. */
  datatype Attempt = Attempt(waiting: seq<Step>, during: seq<Step>, heard: bool)

  /** Everything the outside world decides during one dispatch. */
  datatype Io = Io(
    admitted: bool,      // the preflight before journaling
    readmitted: bool,    // the preflight repeated right before the first transport
    refusal: Kind,       // why a preflight refused
    evidence: bool,      // fresh records settle an earlier, unanswered request
    attempts: seq<Attempt>,
    retryAt: int)

  datatype Outcome = Staged | Held | Unresolved | Quarantined | Retired | Rebound | Consumed | Died

  /** How often the client's own loop may send a request: borrowing and public posts once.
      Repetitions inside the HTTP library, within one attempt, are not counted. */
  function MutationAttempts(request: Request): (attempts: nat)
    ensures 1 <= attempts <= MAX_ATTEMPTS
  {
    if && request.verb == "POST"
       && request.path in {"/v1/loan/request", "/v1/loan/approve", "/v1/bulletin/thread", "/v1/bulletin/reply"}
    then 1
    else MAX_ATTEMPTS
  }

  class Runner {
    const net: Network
    // The database.
    var missions: map<string, Mission>
    var rows: map<ActionId, Row>
    // The game server and the network.
    var log: map<ActionId, Entry>
    var wire: set<Packet>
    var now: int
    // This process.
    var session: nat
    var captured: Epochs
    var published: Epochs
    var reading: Option<View>
    var view: Option<View>
    // The same with its history, and how it came about.
    ghost var world: World
    ghost var trace: seq<Step>
    ghost var worlds: seq<World>

    /** The fields agree with this world. */
    ghost predicate Shows(w: World)
      reads this
    {
      && missions == w.missions && rows == w.rows && log == w.log && wire == w.wire && now == w.now
      && published == w.published && session == w.session && captured == w.captured
      && reading == w.reading && view == w.view
    }

    ghost predicate Valid()
      reads this
    {
      net.flight <= REMEMBERED && world.net == net && Shows(world) && Ran(net, trace, worlds, world)
    }

    /** Whatever the runner has done so far is a legal run. */
    lemma IsRun()
      requires Valid()
      ensures Legal(net, trace) && After(net, trace) == world && Inv(world)
    {
      RanLegal(net, trace, worlds, world);
      EveryRunKeepsInv(net, trace);
    }

    /** A row closed on evidence says what the server did, or on a punctual network
        that it did nothing. */
    lemma EvidenceTrue(id: ActionId)
      requires Valid() && id in rows
      ensures rows[id].state == Authoritative(true) ==> id in log && log[id].applied != []
      ensures rows[id].state == Authoritative(false) && Punctual(net) && id in log ==> log[id].applied == []
    {
      IsRun();
      assert OutcomeOf(world, id);
    }

    lemma RowIsOwn(ship: string)
      requires Valid() && Attached(world, ship) && Current(world, ship).id in rows
      ensures rows[Current(world, ship).id].request == Current(world, ship).request
    {
      IsRun();
    }

    constructor (net: Network)
      requires net.flight <= REMEMBERED
      ensures Valid() && trace == [] && world == Start(net)
    {
      this.net, reading, view := net, None, None;
      missions, rows, log, wire := map[], map[], map[], {};
      now, session, captured, published := 0, 0, Epochs(0, 0), Epochs(0, 0);
      world, trace, worlds := Start(net), [], [Start(net)];
    }

    /** Adds to the run the step that has just been made on the fields. */
    ghost method Record(step: Step)
      requires net.flight <= REMEMBERED && world.net == net && Ran(net, trace, worlds, world)
      requires Enabled(world, step) && Shows(Apply(world, step))
      modifies this`world, this`trace, this`worlds
      ensures Valid() && trace == old(trace) + [step] && world == Apply(old(world), step)
      ensures Sends(trace) == old(Sends(trace)) + if step.Transport? then 1 else 0
    {
      RunsOn(net, trace, worlds, world, step);
      world := Apply(world, step);
      trace, worlds := trace + [step], worlds + [world];
    }

    // What the process knew dies with it, and the next one counts events from zero.
    method Restart()
      modifies this`session, this`captured, this`published, this`reading, this`view
      ensures session == old(session) + 1 && captured == published == Epochs(0, 0) && reading == view == None
    {
      session, captured, published, reading, view := session + 1, Epochs(0, 0), Epochs(0, 0), None, None;
    }

    method Die()
      requires Valid()
      modifies this
      ensures Valid() && old(trace) <= trace && Quiet()
      ensures world == Apply(old(world), Crash)
    {
      Restart();
      Record(Crash);
    }

    /** No request leaves. */
    twostate predicate Quiet()
      reads this
    {
      world.sent == old(world.sent) && Sends(trace) == old(Sends(trace))
    }

    // ------------------------------------------------------------- surroundings

    /** Another part of the bot opens a mission under a fresh generation. */
    method OpenMission(ship: string, generation: string, kind: MissionKind)
      requires Valid() && ship !in missions && generation !in world.generations
      modifies this
      ensures Valid() && old(trace) <= trace && Quiet()
      ensures world == Apply(old(world), Open(ship, generation, kind))
    {
      missions := missions[ship := Mission(generation, kind, None, 0, 0, None)];
      Record(Open(ship, generation, kind));
    }

    /** A pass over the account starts: the fences of the last handled events count
        for what it does, and the records of the pass before are forgotten. */
    method StartCapture(handled: Epochs)
      requires Valid() && world.sender.Idle?
      requires captured.financial <= handled.financial <= published.financial
      requires captured.control <= handled.control <= published.control
      modifies this
      ensures Valid() && old(trace) <= trace && Quiet()
      ensures world == Apply(old(world), Capture(handled))
    {
      captured, reading, view := handled, None, None;
      Record(Capture(handled));
    }

    /** Only then does it ask for the game's records, which the server reads later. */
    method AskRecords()
      requires Valid() && world.sender.Idle?
      modifies this
      ensures Valid() && old(trace) <= trace && Quiet()
      ensures world == Apply(old(world), Read)
    {
      reading := Some(View(now, now, log));
      Record(Read);
    }

    /** The records arrive, unless they took longer than the network allows. */
    method FinishCapture()
      requires Valid() && world.sender.Idle?
      modifies this
      ensures Valid() && old(trace) <= trace && Quiet()
      ensures world == if old(Enabled(world, Answer)) then Apply(old(world), Answer) else old(world)
    {
      if reading.Some? && now <= reading.value.readAt + net.lag {
        reading, view := None, Some(reading.value.(answeredAt := now));
        Record(Answer);
      }
    }

    /** What waiting leaves alone: the database and this process's own memory. */
    twostate predicate Undisturbed()
      reads this
    {
      && missions == old(missions) && rows == old(rows) && session == old(session) && captured == old(captured)
      && reading == old(reading) && view == old(view) && world.sender == old(world.sender) && Quiet()
      && world.unsent == old(world.unsent) && world.generations == old(world.generations) && old(now) <= now
    }

    method AwaitOne(event: Step)
      requires Valid()
      modifies this
      ensures Valid() && old(trace) <= trace && Undisturbed()
    {
      match event
      case Tick(elapsed) =>
        now := now + elapsed;
        Record(event);
      case Publish(control) => Announce(control);
      case Deliver(packet, status) => Carry(packet, status);
      case Lose(packet) => Drop(packet);
      case _ =>
    }

    method Announce(control: bool)
      requires Valid()
      modifies this
      ensures Valid() && old(trace) <= trace && Undisturbed()
    {
      published := if control then published.(control := published.control + 1)
                   else published.(financial := published.financial + 1);
      Record(Publish(control));
    }

    method Carry(packet: Packet, status: int)
      requires Valid()
      modifies this
      ensures Valid() && old(trace) <= trace && Undisturbed()
    {
      if packet in wire && now <= packet.startedAt + net.flight && (Succeeded(status) || Refused(status)) {
        log, wire := Receive(log, packet, now, status), wire - {packet};
        Record(Deliver(packet, status));
      }
    }

    method Drop(packet: Packet)
      requires Valid()
      modifies this
      ensures Valid() && old(trace) <= trace && Undisturbed()
    {
      if packet in wire {
        wire := wire - {packet};
        Record(Lose(packet));
      }
    }

    /** Time passes: packets arrive or get lost, events are published. */
    method Await(events: seq<Step>)
      requires Valid()
      modifies this
      ensures Valid() && old(trace) <= trace && Undisturbed()
    {
      for i := 0 to |events|
        invariant Valid() && old(trace) <= trace && Undisturbed()
      {
        AwaitOne(events[i]);
      }
    }

    // ------------------------------------------------------------ the executor

    method StagedFundsValid(action: Action) returns (valid: bool)
      requires Valid()
      ensures valid == FundsValid(world, action)
    {
      valid := action.session == session && action.epochs.financial == captured.financial
               && action.epochs.financial == published.financial;
    }

    method StagedControlValid(action: Action) returns (valid: bool)
      requires Valid()
      ensures valid == ControlValid(world, action)
    {
      valid := action.epochs.control == captured.control && action.epochs.control == published.control;
    }

    /** The mission has no action any more and its sequence has moved on. */
    ghost predicate MovedOn(ship: string, was: Mission)
      reads this
    {
      ship in missions && missions[ship].action.None? && missions[ship].sequence == was.sequence + 1
    }

    /** The request is settled, and its mission has taken note. */
    ghost predicate Finished(ship: string, was: Mission)
      requires was.action.Some?
      reads this
    {
      && MovedOn(ship, was)
      && missions[ship].lastAction == Some(was.action.value.id)
      && was.action.value.id in rows
      && (rows[was.action.value.id].state.Complete? || rows[was.action.value.id].state.Authoritative?)
    }

    /** The request is proved unsent, and its mission is free for another or gone. */
    ghost predicate LetUnsent(ship: string, was: Mission)
      requires was.action.Some?
      reads this
    {
      was.action.value.id in world.unsent && (ship in missions ==> MovedOn(ship, was))
    }

    /** Whatever leaves is this action's frozen request under its own key, and the
        client's loop sends it no more often than its verb and path allow. */
    twostate predicate SendsOnly(action: Action)
      reads this
    {
      && (forall packet <- world.sent - old(world.sent) :: packet.id == action.id && packet.request == action.request)
      && Sends(trace) <= old(Sends(trace)) + MutationAttempts(action.request)
    }

    /** Freezes a request in its mission before anything is journaled or sent. */
    method StageAction(ship: string, stage: string, path: string, body: seq<int>) returns (r: Outcome)
      requires Valid() && world.sender.Idle? && ship in missions
      modifies this
      ensures Valid() && old(trace) <= trace && Quiet() && rows == old(rows)
      ensures old(missions[ship].action.Some? || captured != published) ==> r.Held?
      ensures r.Held? || r.Died? ==> missions == old(missions)
      ensures r in {Held, Died, Staged}
      ensures r.Staged? ==>
                var m := old(missions[ship]);
                var verb := if path == "/v1/company/settings" then "PATCH" else "POST";
                missions == old(missions)[ship := m.(action := Some(
                  Action(ActionId(m.generation, stage, m.sequence), Request(verb, path, body), session, captured)))]
    {
      var data := missions[ship];
      if data.action.Some? {
        return Held;
      }
      if captured.control != published.control {
        return Held;
      }
      if captured.financial != published.financial {
        return Held;
      }
      var verb := "POST";
      if path == "/v1/company/settings" {
        verb := "PATCH";
      }
      if * {
        Die();
        return Died;
      }
      var id := ActionId(data.generation, stage, data.sequence);
      SaveStaged(ship, stage, Action(id, Request(verb, path, body), session, captured));
      return Staged;
    }

    method SaveStaged(ship: string, stage: string, action: Action)
      requires Valid() && Enabled(world, Stage(ship, stage, action.request))
      requires action == Action(ActionId(missions[ship].generation, stage, missions[ship].sequence),
                                action.request, session, captured)
      modifies this
      ensures Valid() && old(trace) <= trace && Quiet()
      ensures world == Apply(old(world), Stage(ship, stage, action.request))
    {
      missions := missions[ship := missions[ship].(action := Some(action))];
      Record(Stage(ship, stage, action.request));
    }

    /** Releases a request that is known never to have left: either it was never
        journaled, or its row holds this process's own proof of no send. */
    method ReplanUnsentAction(ship: string, kind: Kind, until: int) returns (r: Outcome)
      requires Valid() && world.sender.Idle? && Attached(world, ship) && KnownUnsent(world, Current(world, ship).id)
      modifies this
      ensures Valid() && old(trace) <= trace && Quiet()
      ensures rows == old(rows) && log == old(log)
      ensures r in {Retired, Rebound, Died}
      ensures r.Retired? ==> LetUnsent(ship, old(missions[ship]))
      ensures r.Retired? && ship in missions && kind !in {Financial, Control} ==> until <= missions[ship].cooldownUntil
      ensures r.Retired? && ship !in missions ==> old(missions[ship].kind.Exit?) && kind in {Financial, Control}
      ensures r.Rebound? ==>
                && old(Current(world, ship).id) !in rows
                && missions == old(missions)[ship := old(missions[ship]).(action :=
                  Some(old(Current(world, ship)).(session := session, epochs := captured)))]
      ensures r.Died? ==> missions == old(missions)
    {
      var data := missions[ship];
      var fenced := kind.Financial? || kind.Control?;
      if * {
        Die();
        return Died;
      }
      if data.kind.Retained? && fenced && data.action.value.id !in rows {
        RebindAction(ship);
        return Rebound;
      }
      if data.kind.Exit? && fenced {
        CloseMission(ship);
        return Retired;
      }
      RetireAction(ship, if fenced then data.cooldownUntil else until);
      return Retired;
    }

    method RebindAction(ship: string)
      requires Valid() && Enabled(world, Rebind(ship))
      modifies this
      ensures Valid() && old(trace) <= trace && Quiet() && world == Apply(old(world), Rebind(ship))
    {
      var data := missions[ship];
      var action := data.action.value.(session := session, epochs := captured);
      missions := missions[ship := data.(action := Some(action))];
      Record(Rebind(ship));
    }

    method CloseMission(ship: string)
      requires Valid() && Enabled(world, Close(ship))
      modifies this
      ensures Valid() && old(trace) <= trace && Quiet() && world == Apply(old(world), Close(ship))
    {
      missions := missions - {ship};
      Record(Close(ship));
    }

    method RetireAction(ship: string, until: int)
      requires Valid() && Enabled(world, RetireUnsent(ship, until))
      modifies this
      ensures Valid() && old(trace) <= trace && Quiet() && world == Apply(old(world), RetireUnsent(ship, until))
    {
      var data := missions[ship];
      data := data.(action := None, sequence := data.sequence + 1, cooldownUntil := Max(data.cooldownUntil, until));
      missions := missions[ship := data];
      Record(RetireUnsent(ship, until));
    }

    /** Advances the mission from an outcome that the journal already holds. */
    method ConsumeOutcome(ship: string, until: int) returns (r: Outcome)
      requires Valid() && Enabled(world, Consume(ship, until))
      modifies this
      ensures Valid() && old(trace) <= trace && Quiet()
      ensures rows == old(rows) && log == old(log)
      ensures r in {Consumed, Died}
      ensures r.Consumed? ==> Finished(ship, old(missions[ship]))
      ensures r.Died? ==> missions == old(missions)
    {
      if * {
        Die();
        return Died;
      }
      MoveOn(ship, until);
      return Consumed;
    }

    method MoveOn(ship: string, until: int)
      requires Valid() && Enabled(world, Consume(ship, until))
      modifies this
      ensures Valid() && old(trace) <= trace && Quiet() && world == Apply(old(world), Consume(ship, until))
    {
      var data := missions[ship];
      data := data.(lastAction := Some(data.action.value.id), sequence := data.sequence + 1, action := None,
                    cooldownUntil := Max(data.cooldownUntil, until));
      missions := missions[ship := data];
      Record(Consume(ship, until));
    }

    /** Closes a pending row with evidence read from the game's own records. */
    method ReconcileAction(ship: string, applied: bool)
      requires Valid() && Enabled(world, Observe(ship, applied))
      modifies this
      ensures Valid() && old(trace) <= trace && Quiet()
      ensures world == Apply(old(world), Observe(ship, applied))
    {
      var id := missions[ship].action.value.id;
      rows := rows[id := rows[id].(state := Authoritative(applied))];
      Record(Observe(ship, applied));
    }

    /** Writes the evidence and then lets the mission take note. */
    method ApplyReconciliation(ship: string, applied: bool, until: int) returns (r: Outcome)
      requires Valid() && Enabled(world, Observe(ship, applied))
      modifies this
      ensures Valid() && old(trace) <= trace && Quiet() && log == old(log)
      ensures r in {Consumed, Died}
      ensures r.Died? ==> missions == old(missions)
      ensures r.Consumed? ==>
                && Finished(ship, old(missions[ship]))
                && rows[old(missions[ship].action.value.id)].state == Authoritative(applied)
    {
      if * {
        Die();
        return Died;
      }
      ReconcileAction(ship, applied);
      r := ConsumeOutcome(ship, until);
    }

    /** Later records may settle a request whose own answer was lost: they show it, or
        they lack it and were answered after its replay window. */
    method ReconcileObserved(ship: string, io: Io) returns (r: Outcome)
      requires Valid() && world.sender.Idle? && Attached(world, ship) && Current(world, ship).id in rows
      requires rows[Current(world, ship).id].state.Pending?
      modifies this
      ensures Valid() && old(trace) <= trace && Quiet() && log == old(log)
      ensures r in {Held, Consumed, Died}
      ensures r.Held? ==> world == old(world)
      ensures r.Died? ==> missions == old(missions)
      ensures r.Consumed? ==>
                && Finished(ship, old(missions[ship]))
                && rows[old(missions[ship].action.value.id)].state.Authoritative?
      ensures r.Consumed? ==> old(view).Some? && io.evidence
      // Shown, the request took effect; missing, it never did on a punctual network.
      ensures r.Consumed? ==>
                var id := old(missions[ship].action.value.id);
                && (rows[id].state == Authoritative(true) ==> id in log && log[id].applied != [])
                && (rows[id].state == Authoritative(false) && Punctual(net) && id in log ==> log[id].applied == [])
    {
      if view.None? || !io.evidence {
        return Held;
      }
      var id := missions[ship].action.value.id;
      var applied := id in view.value.log && view.value.log[id].applied != [];
      if !applied && view.value.answeredAt < rows[id].createdAt + REPLAY_WINDOW {
        return Held;
      }
      r := ApplyReconciliation(ship, applied, io.retryAt);
      if r.Consumed? {
        EvidenceTrue(id);
      }
    }

    /** Journals the mission's request. Only an absent row is inserted, so the
        caller knows that no earlier process can have sent it. */
    method BeginAction(ship: string)
      requires Valid() && Enabled(world, Begin(ship))
      modifies this
      ensures Valid() && old(trace) <= trace && Quiet()
      ensures world == Apply(old(world), Begin(ship))
    {
      var action := missions[ship].action.value;
      rows := rows[action.id := Row(action.request, Pending, now)];
      Record(Begin(ship));
    }

    method TransportOnce(id: ActionId)
      requires Valid() && MayTransport(world) && id == world.sender.id
      modifies this
      ensures Valid() && old(trace) <= trace && Sends(trace) == old(Sends(trace)) + 1
      ensures world == Apply(old(world), Transport)
    {
      wire := wire + {Message(id, rows[id].request, now)};
      Record(Transport);
    }

    /** Proof of no send: written only by the process that created the row, and
        only before its first transport. */
    method VetoAction(id: ActionId, kind: Kind)
      requires Valid() && Enabled(world, Veto(kind)) && id == world.sender.id
      modifies this
      ensures Valid() && old(trace) <= trace && Quiet()
      ensures world == Apply(old(world), Veto(kind))
    {
      rows := rows[id := rows[id].(state := NeverSent(kind))];
      Record(Veto(kind));
    }

    method CompleteAction(id: ActionId)
      requires Valid() && Enabled(world, Settle) && id == world.sender.id
      modifies this
      ensures Valid() && old(trace) <= trace && Quiet()
      ensures world == Apply(old(world), Settle)
    {
      rows := rows[id := rows[id].(state := Complete(log[id].status))];
      Record(Settle);
    }

    /** Keeps the request and its key, and waits before the next look. */
    method PostponeAction(ship: string)
      requires Valid() && world.sender.Sending? && world.sender.ship == ship && ship in missions
      modifies this
      ensures Valid() && old(trace) <= trace && Quiet()
      ensures world == Apply(old(world), Postpone(now + RETRY_DELAY))
    {
      missions := missions[ship := missions[ship].(cooldownUntil := now + RETRY_DELAY)];
      Record(Postpone(now + RETRY_DELAY));
    }

    method VetoAndReplan(ship: string, id: ActionId, kind: Kind, until: int) returns (r: Outcome)
      requires Valid() && Enabled(world, Veto(kind)) && id == world.sender.id
      requires Attached(world, ship) && Current(world, ship).id == id
      modifies this
      ensures Valid() && old(trace) <= trace && Quiet()
      ensures r in {Retired, Died}
      ensures r.Retired? ==> LetUnsent(ship, old(missions[ship])) && id in rows && rows[id].state == NeverSent(kind)
      ensures r.Died? ==> missions == old(missions)
    {
      if * {
        Die();
        return Died;
      }
      VetoAction(id, kind);
      r := ReplanUnsentAction(ship, kind, until);
    }

    /** The last check before the first transport. A veto is possible only on a
        request that this dispatch journaled itself. */
    method Preflight(action: Action, first: bool, io: Io) returns (clear: bool, veto: Option<Kind>)
      requires Valid()
      ensures clear ==> if first then FundsValid(world, action) && ControlValid(world, action)
                        else captured.control == published.control
      ensures clear ==> veto.None?
      ensures veto.Some? ==> first
      ensures first && (!ControlValid(world, action) || !FundsValid(world, action) || !io.readmitted) ==> veto.Some?
    {
      if !first {
        return captured.control == published.control, None;
      }
      var control := StagedControlValid(action);
      if !control {
        return false, Some(Control);
      }
      var funds := StagedFundsValid(action);
      if !funds {
        return false, Some(Financial);
      }
      if !io.readmitted {
        return false, Some(io.refusal);
      }
      return true, None;
    }

    /** Records the outcome of the transport attempts, heard or not. */
    method Conclude(ship: string, id: ActionId, heard: bool, io: Io) returns (r: Outcome)
      requires Valid() && Attached(world, ship) && Current(world, ship).id == id && id in rows
      requires world.sender.Sending? && world.sender.ship == ship && world.sender.id == id
      requires heard ==> 0 < world.sender.attempts && id in log
      modifies this
      ensures Valid() && old(trace) <= trace && Quiet()
      ensures r in {Unresolved, Consumed, Died}
      ensures !heard ==> !r.Consumed?
      ensures r.Unresolved? ==>
                && missions == old(missions)[ship := old(missions[ship]).(cooldownUntil := now + RETRY_DELAY)]
                && rows == old(rows)
      ensures r.Consumed? ==>
                Finished(ship, old(missions[ship])) && id in log && rows[id].state == Complete(log[id].status)
    {
      if * {
        Die();
        return Died;
      }
      if !heard {
        PostponeAction(ship);
        return Unresolved;
      }
      CompleteAction(id);
      r := ConsumeOutcome(ship, io.retryAt);
    }

    /** Each transport must start in its window, and the very first past the fences. */
    method Cleared(action: Action, first: bool, attempt: nat, io: Io) returns (clear: bool, veto: Option<Kind>)
      requires Valid() && action.id in rows
      ensures clear ==> InWindow(rows[action.id], now) && veto.None?
      ensures clear && attempt == 0 ==> if first then FundsValid(world, action) && ControlValid(world, action)
                                        else captured.control == published.control
      ensures veto.Some? ==> first && attempt == 0
    {
      if !InWindow(rows[action.id], now) {
        return false, None;
      }
      if attempt == 0 {
        clear, veto := Preflight(action, first, io);
        return;
      }
      return true, None;
    }

    /** One turn of the transport loop: wait, check the deadline and, before the
        very first transport, the fences; then send once. */
    method AttemptOnce(ship: string, first: bool, attempt: nat, io: Io)
      returns (sending: bool, heard: bool, veto: Option<Kind>)
      requires Valid() && Attached(world, ship) && attempt < MAX_ATTEMPTS
      requires world.sender == Sending(ship, Current(world, ship).id, first, attempt)
      requires world.sender.id in rows && rows[world.sender.id].state.Pending? && missions[ship].cooldownUntil <= now
      modifies this
      ensures Valid() && old(trace) <= trace && missions == old(missions) && rows == old(rows) && old(now) <= now
      ensures world.sender == old(world.sender).(attempts := if sending then attempt + 1 else attempt)
      ensures Sends(trace) == old(Sends(trace)) + if sending then 1 else 0
      ensures !sending ==> world.sent == old(world.sent)
      ensures forall packet <- world.sent - old(world.sent) ::
                packet.id == old(world.sender.id) && packet.request == old(rows[world.sender.id].request)
      ensures heard ==> sending && old(world.sender.id) in log
      ensures veto.Some? ==> first && attempt == 0 && !sending
    {
      sending, heard, veto := false, false, None;
      var action := missions[ship].action.value;
      var event := if attempt < |io.attempts| then io.attempts[attempt] else Attempt([], [], false);
      Await(event.waiting);
      var clear;
      clear, veto := Cleared(action, first, attempt, io);
      if !clear {
        return;
      }
      TransportOnce(action.id);
      Await(event.during);
      sending, heard := true, event.heard && action.id in log;
    }

    /** Sends the journaled request until an answer is heard, its transport
        attempts run out or its window closes. */
    method Send(ship: string, first: bool, io: Io) returns (r: Outcome)
      requires Valid() && Attached(world, ship)
      requires world.sender == Sending(ship, Current(world, ship).id, first, 0)
      requires Current(world, ship).id in rows && rows[Current(world, ship).id].state.Pending?
      requires rows[Current(world, ship).id].request == Current(world, ship).request
      requires missions[ship].cooldownUntil <= now
      modifies this
      ensures Valid() && old(trace) <= trace && SendsOnly(old(Current(world, ship)))
      ensures r in {Unresolved, Retired, Consumed, Died}
      ensures r.Retired? ==> first && LetUnsent(ship, old(missions[ship])) && Quiet()
      ensures r.Unresolved? ==>
                && missions == old(missions)[ship := old(missions[ship]).(cooldownUntil := now + RETRY_DELAY)]
                && rows == old(rows)
      ensures r.Consumed? ==> Finished(ship, old(missions[ship]))
    {
      var id := missions[ship].action.value.id;
      var limit := MutationAttempts(rows[id].request);
      var sending, heard, attempt := true, false, 0;
      while sending && !heard && attempt < limit
        invariant Valid() && old(trace) <= trace && missions == old(missions) && rows == old(rows) && old(now) <= now
        invariant attempt <= limit && world.sender == Sending(ship, id, first, attempt)
        invariant heard ==> 0 < attempt && id in log
        invariant attempt == 0 ==> world.sent == old(world.sent)
        invariant Sends(trace) == old(Sends(trace)) + attempt
        invariant forall packet <- world.sent - old(world.sent) :: packet.id == id && packet.request == rows[id].request
        decreases limit - attempt, sending
      {
        var veto;
        sending, heard, veto := AttemptOnce(ship, first, attempt, io);
        if veto.Some? {
          r := VetoAndReplan(ship, id, veto.value, io.retryAt);
          return;
        }
        if sending {
          attempt := attempt + 1;
        }
      }
      r := Conclude(ship, id, heard, io);
    }

    /** A pending request found in the journal: another process, or an earlier
        attempt of this one, may have sent it, so it is never vetoed. */
    method DispatchPending(ship: string, io: Io) returns (r: Outcome)
      requires Valid() && world.sender.Idle? && Attached(world, ship)
      requires Current(world, ship).id in rows && rows[Current(world, ship).id].state.Pending?
      modifies this
      ensures Valid() && old(trace) <= trace && SendsOnly(old(Current(world, ship)))
      ensures r in {Held, Quarantined, Unresolved, Consumed, Died}
      ensures r in {Held, Quarantined} ==> world == old(world) && Quiet()
      ensures old(!InWindow(rows[Current(world, ship).id], now)) ==> Quiet()
      ensures r.Unresolved? ==>
                Attached(world, ship) && Current(world, ship) == old(Current(world, ship)) && rows == old(rows)
      ensures r.Consumed? ==> Finished(ship, old(missions[ship]))
    {
      RowIsOwn(ship);
      var id := missions[ship].action.value.id;
      r := ReconcileObserved(ship, io);
      if !r.Held? {
        return;
      }
      if !InWindow(rows[id], now) {
        return Quarantined;
      }
      if now < missions[ship].cooldownUntil {
        return Held;
      }
      Record(Resume(ship));
      r := Send(ship, false, io);
    }

    /** An action no row is known for yet: held, retired or rebound, or journaled and
        only then sent. */
    method DispatchFirst(ship: string, io: Io) returns (r: Outcome)
      requires Valid() && world.sender.Idle? && Attached(world, ship) && Current(world, ship).id !in rows
      modifies this
      ensures Valid() && old(trace) <= trace && SendsOnly(old(Current(world, ship)))
      ensures r in {Held, Unresolved, Retired, Rebound, Consumed, Died}
      ensures r.Held? ==> world == old(world)
      ensures old(!io.admitted || !FundsValid(world, Current(world, ship))
              || !ControlValid(world, Current(world, ship))) ==>
                Quiet() && rows == old(rows)
      ensures r in {Held, Retired, Rebound} ==> Quiet()
      ensures r.Retired? ==> LetUnsent(ship, old(missions[ship]))
      ensures r.Unresolved? ==> Attached(world, ship) && Current(world, ship) == old(Current(world, ship))
      ensures r.Consumed? ==> Finished(ship, old(missions[ship]))
    {
      var action := missions[ship].action.value;
      if now < missions[ship].cooldownUntil {
        return Held;
      }
      var control := StagedControlValid(action);
      var funds := StagedFundsValid(action);
      if !control || !funds {
        r := ReplanUnsentAction(ship, if control then Financial else Control, io.retryAt);
        return;
      }
      if !io.admitted {
        r := ReplanUnsentAction(ship, io.refusal, io.retryAt);
        return;
      }
      r := BeginAndSend(ship, io);
    }

    /** The journal first, the network second. */
    method BeginAndSend(ship: string, io: Io) returns (r: Outcome)
      requires Valid() && Attached(world, ship) && Enabled(world, Begin(ship))
      modifies this
      ensures Valid() && old(trace) <= trace && SendsOnly(old(Current(world, ship)))
      ensures r in {Unresolved, Retired, Consumed, Died}
      ensures r.Retired? ==> LetUnsent(ship, old(missions[ship])) && Quiet()
      ensures r.Unresolved? ==> Attached(world, ship) && Current(world, ship) == old(Current(world, ship))
      ensures r.Consumed? ==> Finished(ship, old(missions[ship]))
    {
      if * {
        Die();
        return Died;
      }
      BeginAction(ship);
      r := Send(ship, true, io);
    }

    /** Drives the mission's frozen request one stage further. */
    method Dispatch(ship: string, io: Io) returns (r: Outcome)
      requires Valid() && world.sender.Idle? && ship in missions
      modifies this
      ensures Valid() && old(trace) <= trace
      ensures old(missions[ship].action.None?) ==> r.Held?
      ensures r in {Held, Quarantined} ==> world == old(world) && Quiet()
      // Only the frozen request is ever sent, under its own key and in its few attempts.
      ensures old(Attached(world, ship)) ==> SendsOnly(old(Current(world, ship)))
      // A row left pending counts as possibly sent; a settled one is not sent again.
      ensures old(Attached(world, ship) && Current(world, ship).id in rows
              && rows[Current(world, ship).id].state.Pending?) ==>
                r !in {Retired, Rebound}
      ensures old(Attached(world, ship) && Current(world, ship).id in rows
              && !rows[Current(world, ship).id].state.Pending?) ==>
                Quiet()
      // A fresh request goes out only past its preflight and its fences.
      ensures old(Attached(world, ship) && Current(world, ship).id !in rows
                  && (!io.admitted || !FundsValid(world, Current(world, ship))
                      || !ControlValid(world, Current(world, ship)))) ==>
                Quiet() && rows == old(rows)
      ensures r in {Retired, Rebound} ==> Quiet()
      ensures r.Retired? ==> old(Attached(world, ship)) && LetUnsent(ship, old(missions[ship]))
      ensures r.Unresolved? ==>
                old(Attached(world, ship)) && Attached(world, ship) && Current(world, ship) == old(Current(world, ship))
      ensures r.Consumed? ==> old(Attached(world, ship)) && Finished(ship, old(missions[ship]))
    {
      if missions[ship].action.None? {
        return Held;
      }
      var action := missions[ship].action.value;
      var first := action.id !in rows;
      if first {
        r := DispatchFirst(ship, io);
        return;
      }
      match rows[action.id].state
      case NeverSent(kind) => r := ReplanUnsentAction(ship, kind, io.retryAt);
      case Authoritative(_) => r := ConsumeOutcome(ship, io.retryAt);
      case Complete(_) => r := ConsumeOutcome(ship, io.retryAt);
      case Pending => r := DispatchPending(ship, io);
    }
  }
}
