/** Key minting: an observer key is requested under a random mint identity that is
    saved first. A throttled request gets a derived identity after its cooldown;
    any other outcome keeps or ends the mint. */
module Minting {
  import opened Options
  import opened Runs
  import opened Upstream

  const THROTTLED := 429
  // The longest a request started in time may take for its key to be still remembered.
  const FLIGHT := SERVER_RETENTION - REPLAY_WINDOW

  /** `attempt` counts the derivations from the mint's first request identity. */
  datatype Ref = Ref(mint: nat, attempt: nat)

  /** A journal row. `keyed` says that the stored response really holds the key. */
  datatype Row = Row(createdAt: int, status: Option<int>, retryAfter: int, keyed: bool)

  type Packet = Message<Ref>

  /** `apiKey` and `mint` are the stored credentials; a key is named by the
      request that minted it. `asking` is the request this process has sent and
      may hear about. `stored` and `used` only record history. */
  datatype World = World(
    flight: nat,
    apiKey: Option<Ref>,
    mint: Option<nat>,
    rows: map<Ref, Row>,
    log: map<Ref, Entry>,
    wire: set<Packet>,
    now: int,
    asking: Option<Ref>,
    stored: set<Ref>,
    used: set<nat>)

  function Start(flight: nat): World { World(flight, None, None, map[], map[], {}, 0, None, {}, {}) }

  datatype Step =
    | SaveMint(id: nat)
    | Begin(ref: Ref)
    | Transport(ref: Ref)
    | Settle(ref: Ref, retryAfter: int, keyed: bool)
    | StoreKey(ref: Ref)
    | ReleaseMint(ref: Ref)
    | Crash
    | Tick(elapsed: nat)
    | Deliver(packet: Packet, status: int)
    | Lose(packet: Packet)

  /** Timeouts, conflicts and too-early answers decide nothing. */
  predicate Definitive(status: int) {
    Succeeded(status) || (Refused(status) && status !in {408, 409, 425})
  }

  predicate Throttled(row: Row) { row.status == Some(THROTTLED) }

  predicate Minted(w: World, ref: Ref) { ref in w.log && w.log[ref].applied != [] }

  function KeyRequest(ref: Ref): Request { Request("POST", "/v1/auth/create-key", [ref.mint]) }

  predicate Enabled(w: World, step: Step) {
    match step
    case SaveMint(id) => w.mint.None? && id !in w.used
    case Begin(ref) =>
      && w.mint == Some(ref.mint)
      && ref !in w.rows
      && (ref.attempt > 0 ==>
            var previous := Ref(ref.mint, ref.attempt - 1);
            previous in w.rows && Throttled(w.rows[previous]) && 0 != w.rows[previous].retryAfter <= w.now)
    case Transport(ref) => ref in w.rows && w.rows[ref].status.None? && w.now < w.rows[ref].createdAt + REPLAY_WINDOW
    case Settle(ref, retryAfter, keyed) =>
      ref in w.rows && w.rows[ref].status.None? && ref in w.log && w.asking == Some(ref)
    case StoreKey(ref) =>
      && w.mint == Some(ref.mint)
      && ref in w.rows && w.rows[ref].status.Some?
      && Succeeded(w.rows[ref].status.value) && w.rows[ref].keyed
    case ReleaseMint(ref) =>
      && w.mint == Some(ref.mint)
      && ref in w.rows && w.rows[ref].status.Some?
      && Refused(w.rows[ref].status.value) && !Throttled(w.rows[ref])
    case Crash => true
    case Tick(_) => true
    case Deliver(packet, status) => packet in w.wire && w.now <= packet.startedAt + w.flight && Definitive(status)
    case Lose(packet) => packet in w.wire
  }

  function Apply(w: World, step: Step): World
    requires Enabled(w, step)
  {
    match step
    case SaveMint(id) => w.(mint := Some(id), used := w.used + {id})
    case Begin(ref) => w.(rows := w.rows[ref := Row(w.now, None, 0, false)])
    case Transport(ref) => w.(wire := w.wire + {Message(ref, KeyRequest(ref), w.now)}, asking := Some(ref))
    case Settle(ref, retryAfter, keyed) =>
      var status := w.log[ref].status;
      var row := Row(w.rows[ref].createdAt, Some(status), retryAfter, keyed && Succeeded(status));
      w.(rows := w.rows[ref := row], asking := None)
    case StoreKey(ref) => w.(apiKey := Some(ref), mint := None, stored := w.stored + {ref})
    case ReleaseMint(ref) => w.(mint := None)
    case Crash => w.(asking := None)
    case Tick(elapsed) => w.(now := w.now + elapsed)
    case Deliver(packet, status) => w.(wire := w.wire - {packet}, log := Receive(w.log, packet, w.now, status))
    case Lose(packet) => w.(wire := w.wire - {packet})
  }

  ghost predicate Legal(flight: nat, steps: seq<Step>)
    decreases |steps|, 0
  {
    steps == [] || (Legal(flight, Front(steps)) && Enabled(After(flight, Front(steps)), Last(steps)))
  }

  ghost function After(flight: nat, steps: seq<Step>): World
    requires Legal(flight, steps)
    decreases |steps|, 1
  {
    if steps == [] then Start(flight) else Apply(After(flight, Front(steps)), Last(steps))
  }

  // ---------------------------------------------------------------- invariant

  /** Each retry follows a throttled predecessor whose cooldown had elapsed. */
  ghost predicate Chained(w: World, ref: Ref)
    requires ref in w.rows
  {
    && ref.mint in w.used
    && w.rows[ref].createdAt <= w.now
    && (ref.attempt > 0 ==>
          var previous := Ref(ref.mint, ref.attempt - 1);
          && previous in w.rows
          && Throttled(w.rows[previous])
          && 0 != w.rows[previous].retryAfter <= w.rows[ref].createdAt)
  }

  ghost predicate ChainSound(w: World) {
    forall ref <- w.rows :: Chained(w, ref)
  }

  ghost predicate WireSound(w: World) {
    forall packet <- w.wire ::
      && packet.id in w.rows && packet.request == KeyRequest(packet.id)
      && w.rows[packet.id].createdAt <= packet.startedAt < w.rows[packet.id].createdAt + REPLAY_WINDOW
      && packet.startedAt <= w.now
  }

  ghost predicate LogSound(w: World) {
    forall ref <- w.log ::
      && ref in w.rows
      && w.rows[ref].createdAt <= w.log[ref].seenAt
      && DecidedOnce(w.log[ref], KeyRequest(ref))
  }

  ghost predicate RowsSound(w: World) {
    forall ref <- w.rows | w.rows[ref].status.Some? ::
      ref in w.log && w.rows[ref].status.value == w.log[ref].status
  }

  /** The journaled request that ended a mint, if the mint has ended. */
  ghost predicate EndedBy(w: World, ref: Ref) {
    && ref in w.rows && w.rows[ref].status.Some? && !Throttled(w.rows[ref])
    && (Minted(w, ref) ==> ref in w.stored)
  }

  ghost predicate MintsSound(w: World) {
    && (w.mint.Some? ==> w.mint.value in w.used)
    && (forall id <- w.used | w.mint != Some(id) :: exists ref <- w.rows :: ref.mint == id && EndedBy(w, ref))
    && (forall ref <- w.stored :: Minted(w, ref) && ref.mint in w.used && w.mint != Some(ref.mint))
    && (w.apiKey.Some? ==> w.apiKey.value in w.stored)
  }

  ghost predicate Inv(w: World) {
    w.flight <= FLIGHT && ChainSound(w) && WireSound(w) && LogSound(w) && RowsSound(w) && MintsSound(w)
  }

  lemma ArrivesRemembered(w: World, packet: Packet)
    requires Inv(w) && packet in w.wire && w.now <= packet.startedAt + w.flight && packet.id in w.log
    ensures w.now < w.log[packet.id].seenAt + SERVER_RETENTION
  {
  }

  /** Rows stay, keep their creation time, and are final once settled. */
  lemma RowsStay(w: World, step: Step, ref: Ref)
    requires Enabled(w, step) && ref in w.rows
    ensures ref in Apply(w, step).rows && Apply(w, step).rows[ref].createdAt == w.rows[ref].createdAt
    ensures w.rows[ref].status.Some? ==> Apply(w, step).rows[ref] == w.rows[ref]
  {
  }

  lemma StepKeepsChain(w: World, step: Step)
    requires Inv(w) && Enabled(w, step)
    ensures ChainSound(Apply(w, step))
  {
    var v := Apply(w, step);
    forall ref <- v.rows ensures Chained(v, ref) {
      if ref in w.rows {
        assert Chained(w, ref);
        RowsStay(w, step, ref);
        if ref.attempt > 0 {
          RowsStay(w, step, Ref(ref.mint, ref.attempt - 1));
        }
      } else {
        assert step == Begin(ref);
      }
    }
  }

  lemma StepKeepsWire(w: World, step: Step)
    requires Inv(w) && Enabled(w, step)
    ensures WireSound(Apply(w, step))
  {
    forall packet <- w.wire ensures packet.id in Apply(w, step).rows { RowsStay(w, step, packet.id); }
  }

  /** A key's first decision stands. */
  lemma LogStays(w: World, step: Step, ref: Ref)
    requires Inv(w) && Enabled(w, step) && ref in w.log
    ensures ref in Apply(w, step).log && Apply(w, step).log[ref] == w.log[ref]
  {
    if step.Deliver? && step.packet.id == ref {
      ArrivesRemembered(w, step.packet);
    }
  }

  lemma StepKeepsLog(w: World, step: Step)
    requires Inv(w) && Enabled(w, step)
    ensures LogSound(Apply(w, step))
  {
    var v := Apply(w, step);
    forall ref <- v.log
      ensures ref in v.rows && v.rows[ref].createdAt <= v.log[ref].seenAt && DecidedOnce(v.log[ref], KeyRequest(ref))
    {
      if ref in w.log {
        LogStays(w, step, ref);
        RowsStay(w, step, ref);
      } else {
        assert step.Deliver? && step.packet.id == ref;
        assert [] + [step.packet.request] == [step.packet.request];
      }
    }
  }

  lemma StepKeepsRows(w: World, step: Step)
    requires Inv(w) && Enabled(w, step)
    ensures RowsSound(Apply(w, step))
  {
    var v := Apply(w, step);
    forall ref <- v.rows | v.rows[ref].status.Some?
      ensures ref in v.log && v.rows[ref].status.value == v.log[ref].status
    {
      if ref in w.log {
        LogStays(w, step, ref);
      }
    }
  }

  lemma EndStays(w: World, step: Step, ref: Ref)
    requires Inv(w) && Enabled(w, step) && EndedBy(w, ref)
    ensures EndedBy(Apply(w, step), ref)
  {
    LogStays(w, step, ref);
  }

  lemma StepKeepsMints(w: World, step: Step)
    requires Inv(w) && Enabled(w, step)
    ensures MintsSound(Apply(w, step))
  {
    var v := Apply(w, step);
    forall id <- v.used | v.mint != Some(id)
      ensures exists ref <- v.rows :: ref.mint == id && EndedBy(v, ref)
    {
      if w.mint == Some(id) {
        assert EndedBy(v, step.ref);
      } else {
        var ref :| ref in w.rows && ref.mint == id && EndedBy(w, ref);
        EndStays(w, step, ref);
      }
    }
    forall ref <- v.stored ensures Minted(v, ref) && ref.mint in v.used && v.mint != Some(ref.mint) {
      if ref in w.stored {
        LogStays(w, step, ref);
      }
    }
  }

  // ----------------------------------------------------------------- theorems

  lemma {:induction false} EveryRunKeepsInv(flight: nat, steps: seq<Step>)
    requires flight <= FLIGHT && Legal(flight, steps)
    ensures Inv(After(flight, steps))
    decreases |steps|
  {
    if steps != [] {
      var w, step := After(flight, Front(steps)), Last(steps);
      EveryRunKeepsInv(flight, Front(steps));
      StepKeepsChain(w, step);
      StepKeepsWire(w, step);
      StepKeepsLog(w, step);
      StepKeepsRows(w, step);
      StepKeepsMints(w, step);
    }
  }

  /** Every request before a later one of the same mint was throttled. */
  lemma {:induction false} EarlierThrottled(w: World, early: Ref, late: Ref)
    requires Inv(w) && late in w.rows && early.mint == late.mint && early.attempt < late.attempt
    ensures early in w.rows && Throttled(w.rows[early]) && !Minted(w, early)
    decreases late.attempt
  {
    assert Chained(w, late);
    if early.attempt < late.attempt - 1 {
      EarlierThrottled(w, early, Ref(late.mint, late.attempt - 1));
    }
  }

  /** One mint identity creates at most one server key. */
  lemma OneKeyPerMint(flight: nat, steps: seq<Step>, a: Ref, b: Ref)
    requires flight <= FLIGHT && Legal(flight, steps)
    requires Minted(After(flight, steps), a) && Minted(After(flight, steps), b) && a.mint == b.mint
    ensures a == b && |After(flight, steps).log[a].applied| == 1
  {
    EveryRunKeepsInv(flight, steps);
    if a.attempt < b.attempt {
      EarlierThrottled(After(flight, steps), a, b);
    } else if b.attempt < a.attempt {
      EarlierThrottled(After(flight, steps), b, a);
    }
  }

  /** No key is ever lost: each minted key was stored, or its mint is still open. */
  lemma NoOrphanKey(flight: nat, steps: seq<Step>, ref: Ref)
    requires flight <= FLIGHT && Legal(flight, steps) && Minted(After(flight, steps), ref)
    ensures ref in After(flight, steps).stored || After(flight, steps).mint == Some(ref.mint)
  {
    EveryRunKeepsInv(flight, steps);
    var w := After(flight, steps);
    assert Chained(w, ref);
    if w.mint != Some(ref.mint) {
      var end :| end in w.rows && end.mint == ref.mint && EndedBy(w, end);
      if end.attempt < ref.attempt {
        EarlierThrottled(w, end, ref);
      } else if ref.attempt < end.attempt {
        EarlierThrottled(w, ref, end);
      }
    }
  }

  /** A mint identity is let go only once its key is stored, or a refusal other
      than throttling is journaled; and then the server holds no key of it. */
  lemma MintEndsProved(flight: nat, steps: seq<Step>, id: nat)
    requires flight <= FLIGHT && Legal(flight, steps)
    requires id in After(flight, steps).used && After(flight, steps).mint != Some(id)
    ensures
      var w := After(flight, steps);
      exists ref <- w.rows ::
        && ref.mint == id && w.rows[ref].status.Some? && !Throttled(w.rows[ref])
        && (ref in w.stored || Refused(w.rows[ref].status.value))
    ensures (forall ref <- After(flight, steps).stored :: ref.mint != id) ==>
              forall ref: Ref | ref.mint == id :: !Minted(After(flight, steps), ref)
  {
    EveryRunKeepsInv(flight, steps);
    var w := After(flight, steps);
    var end :| end in w.rows && end.mint == id && EndedBy(w, end);
    assert end in w.stored || Refused(w.rows[end].status.value);
    forall ref: Ref | ref.mint == id && Minted(w, ref) ensures ref in w.stored {
      NoOrphanKey(flight, steps, ref);
    }
  }

  /** A derived identity is used only after its predecessor's saved cooldown. */
  lemma RetryWaitsForCooldown(flight: nat, steps: seq<Step>, ref: Ref)
    requires flight <= FLIGHT && Legal(flight, steps) && ref in After(flight, steps).rows && ref.attempt > 0
    ensures
      var w, previous := After(flight, steps), Ref(ref.mint, ref.attempt - 1);
      && previous in w.rows && Throttled(w.rows[previous])
      && w.rows[previous].retryAfter <= w.rows[ref].createdAt
      && !Minted(w, previous)
  {
    EveryRunKeepsInv(flight, steps);
    assert Chained(After(flight, steps), ref);
  }

  /** A minted key that the next run of the command can still fetch. */
  ghost predicate Recoverable(w: World, ref: Ref) {
    && w.mint == Some(ref.mint) && Minted(w, ref) && ref in w.rows
    && if w.rows[ref].status.Some? then w.rows[ref].keyed else w.now < w.rows[ref].createdAt + REPLAY_WINDOW
  }

  /** The chain of a mint with a key ends at the request that minted it. */
  lemma ChainEndsAtKey(w: World, ref: Ref, other: Ref)
    requires Inv(w) && Minted(w, ref) && other in w.rows && other.mint == ref.mint
    ensures ref in w.rows
    ensures other == ref || (Throttled(w.rows[other]) && 0 != w.rows[other].retryAfter <= w.now)
    ensures !Throttled(w.rows[ref])
  {
    if other.attempt < ref.attempt {
      EarlierThrottled(w, other, ref);
      CooldownPassed(w, other, ref);
    } else if ref.attempt < other.attempt {
      EarlierThrottled(w, ref, other);
    }
  }

  lemma {:induction false} CooldownPassed(w: World, early: Ref, late: Ref)
    requires Inv(w) && late in w.rows && early.mint == late.mint && early.attempt < late.attempt && early in w.rows
    ensures 0 != w.rows[early].retryAfter <= w.now
    decreases late.attempt
  {
    assert Chained(w, late);
    if early.attempt < late.attempt - 1 {
      CooldownPassed(w, early, Ref(late.mint, late.attempt - 1));
    }
  }

  /** A minted key whose mint is still open but which no later run can fetch: its
      stored answer lacks the key, or its replay window closed unanswered. */
  ghost predicate Stuck(w: World, ref: Ref) {
    && w.mint == Some(ref.mint) && Minted(w, ref) && ref in w.rows
    && if w.rows[ref].status.Some? then !w.rows[ref].keyed
       else w.rows[ref].createdAt + REPLAY_WINDOW <= w.now && w.asking != Some(ref)
  }

  /** Between runs of the command, every key the server holds is in exactly one of
      three places: stored, waiting for the next run to fetch it, or stuck. */
  lemma KeyAccounted(flight: nat, steps: seq<Step>, ref: Ref)
    requires flight <= FLIGHT && Legal(flight, steps)
    requires Minted(After(flight, steps), ref) && After(flight, steps).asking != Some(ref)
    ensures ref in After(flight, steps).rows
    ensures
      var w := After(flight, steps);
      if ref in w.stored then !Recoverable(w, ref) && !Stuck(w, ref)
      else Recoverable(w, ref) <==> !Stuck(w, ref)
  {
    EveryRunKeepsInv(flight, steps);
    NoOrphanKey(flight, steps, ref);
  }

  lemma StuckStays(w: World, step: Step, ref: Ref)
    requires Inv(w) && Enabled(w, step) && Stuck(w, ref)
    ensures Stuck(Apply(w, step), ref) && Apply(w, step).apiKey == w.apiKey
  {
    LogStays(w, step, ref);
    RowsStay(w, step, ref);
    if step.StoreKey? || step.ReleaseMint? {
      if step.ref.attempt < ref.attempt {
        EarlierThrottled(w, step.ref, ref);
      } else if ref.attempt < step.ref.attempt {
        EarlierThrottled(w, ref, step.ref);
      }
    }
  }

  /** Re-running never recovers a stuck key: the mint stays open for good. */
  lemma {:induction false} StuckForever(flight: nat, steps: seq<Step>, k: nat, ref: Ref)
    requires flight <= FLIGHT && Legal(flight, steps)
    requires k <= |steps| && Legal(flight, steps[..k]) && Stuck(After(flight, steps[..k]), ref)
    ensures Stuck(After(flight, steps), ref) && After(flight, steps).apiKey == After(flight, steps[..k]).apiKey
    decreases |steps|
  {
    if k < |steps| {
      assert Front(steps)[..k] == steps[..k];
      StuckForever(flight, Front(steps), k, ref);
      EveryRunKeepsInv(flight, Front(steps));
      StuckStays(After(flight, Front(steps)), Last(steps), ref);
    } else {
      assert steps[..k] == steps;
    }
  }

  ghost predicate Next(w: World, step: Step, v: World) { Enabled(w, step) && v == Apply(w, step) }

  ghost predicate Ran(flight: nat, steps: seq<Step>, worlds: seq<World>, w: World) {
    Passes(Start(flight), Next, steps, worlds) && Last(worlds) == w
  }

  lemma RunsOn(flight: nat, steps: seq<Step>, worlds: seq<World>, w: World, step: Step)
    requires Ran(flight, steps, worlds, w) && Enabled(w, step)
    ensures Ran(flight, steps + [step], worlds + [Apply(w, step)], Apply(w, step))
  {
    PassesOn(Start(flight), Next, steps, worlds, step, Apply(w, step));
  }

  lemma {:induction false} RanLegal(flight: nat, steps: seq<Step>, worlds: seq<World>, w: World)
    requires Ran(flight, steps, worlds, w)
    ensures Legal(flight, steps) && After(flight, steps) == w
    decreases |steps|
  {
    if steps != [] {
      PassesBefore(Start(flight), Next, steps, worlds);
      RanLegal(flight, Front(steps), Front(worlds), Last(Front(worlds)));
    }
  }

  lemma Then(flight: nat, steps: seq<Step>, worlds: seq<World>, w: World, step: Step)
    returns (more: seq<Step>, seen: seq<World>, v: World)
    requires Ran(flight, steps, worlds, w) && Enabled(w, step)
    ensures v == Apply(w, step) && Ran(flight, more, seen, v)
  {
    RunsOn(flight, steps, worlds, w, step);
    v := Apply(w, step);
    more, seen := steps + [step], worlds + [v];
  }

  const FirstRef := Ref(0, 0)
  const FirstPacket := Message(FirstRef, KeyRequest(FirstRef), 0)

  function Asked(flight: nat): World {
    World(flight, None, Some(0), map[FirstRef := Row(0, None, 0, false)], map[], {FirstPacket}, 0, Some(FirstRef), {},
          {0})
  }

  function Granted(flight: nat): World {
    Asked(flight).(wire := {}, log := map[FirstRef := Entry(0, 201, [KeyRequest(FirstRef)])])
  }

  // The first request of a mint is on its way, and then creates its key.
  lemma Asks(flight: nat) returns (steps: seq<Step>, worlds: seq<World>)
    ensures Ran(flight, steps, worlds, Asked(flight))
  {
    var w := Start(flight);
    steps, worlds := [], [w];
    steps, worlds, w := Then(flight, steps, worlds, w, SaveMint(0));
    steps, worlds, w := Then(flight, steps, worlds, w, Begin(FirstRef));
    steps, worlds, w := Then(flight, steps, worlds, w, Transport(FirstRef));
    assert w == Asked(flight);
  }

  lemma Grants(flight: nat) returns (steps: seq<Step>, worlds: seq<World>)
    ensures Ran(flight, steps, worlds, Granted(flight))
  {
    var w := Asked(flight);
    steps, worlds := Asks(flight);
    steps, worlds, w := Then(flight, steps, worlds, w, Deliver(FirstPacket, 201));
    assert [] + [KeyRequest(FirstRef)] == [KeyRequest(FirstRef)] && {FirstPacket} - {FirstPacket} == {};
    assert w == Granted(flight);
  }

  /** A success whose stored body lacks the key does happen. */
  lemma UnreadableSuccessIsStuck(flight: nat) returns (steps: seq<Step>)
    ensures Legal(flight, steps) && Stuck(After(flight, steps), FirstRef)
    ensures After(flight, steps).rows[FirstRef].status == Some(201)
  {
    var worlds, w := [], Granted(flight);
    steps, worlds := Grants(flight);
    steps, worlds, w := Then(flight, steps, worlds, w, Settle(FirstRef, 0, false));
    RanLegal(flight, steps, worlds, w);
  }

  /** So does one that nobody hears of until its replay window is over. */
  lemma UnheardSuccessIsStuck(flight: nat) returns (steps: seq<Step>)
    ensures Legal(flight, steps) && Stuck(After(flight, steps), FirstRef)
    ensures After(flight, steps).rows[FirstRef].status.None?
  {
    var worlds, w := [], Granted(flight);
    steps, worlds := Grants(flight);
    steps, worlds, w := Then(flight, steps, worlds, w, Crash);
    steps, worlds, w := Then(flight, steps, worlds, w, Tick(REPLAY_WINDOW));
    RanLegal(flight, steps, worlds, w);
  }

  // ------------------------------------------------------------ how slow it may be

  /** In every run, the requests of a mint that create a key are one, and create one. */
  ghost predicate OneKeyAlways(flight: nat) {
    forall steps, a: Ref, b: Ref ::
      Legal(flight, steps) && Minted(After(flight, steps), a) && Minted(After(flight, steps), b) && a.mint == b.mint ==>
        a == b && |After(flight, steps).log[a].applied| == 1
  }

  const LastPacket := Message(FirstRef, KeyRequest(FirstRef), REPLAY_WINDOW - 1)

  /** Unheard, the same request leaves again at the last moment. */
  lemma AsksAgain(flight: nat) returns (steps: seq<Step>, worlds: seq<World>, w: World)
    ensures Ran(flight, steps, worlds, w)
    ensures w == Granted(flight).(now := REPLAY_WINDOW - 1, wire := {LastPacket})
  {
    steps, worlds := Grants(flight);
    w := Granted(flight);
    steps, worlds, w := Then(flight, steps, worlds, w, Tick(REPLAY_WINDOW - 1));
    steps, worlds, w := Then(flight, steps, worlds, w, Transport(FirstRef));
    assert {} + {LastPacket} == {LastPacket};
  }

  lemma MintsTwice(flight: nat) returns (steps: seq<Step>)
    requires FLIGHT < flight
    ensures Legal(flight, steps) && Minted(After(flight, steps), FirstRef)
    ensures |After(flight, steps).log[FirstRef].applied| == 2
  {
    var worlds, w;
    steps, worlds, w := AsksAgain(flight);
    steps, worlds, w := Then(flight, steps, worlds, w, Tick(FLIGHT + 1));
    steps, worlds, w := Then(flight, steps, worlds, w, Deliver(LastPacket, 201));
    RanLegal(flight, steps, worlds, w);
  }

  /** One mint creates at most one key in every run exactly when a request arrives within
      the hour that its replay window leaves. */
  lemma OneKeyExactly(flight: nat)
    ensures OneKeyAlways(flight) <==> flight <= FLIGHT
  {
    if flight <= FLIGHT {
      forall steps, a: Ref, b: Ref
        | Legal(flight, steps) && Minted(After(flight, steps), a) && Minted(After(flight, steps), b) && a.mint == b.mint
        ensures a == b && |After(flight, steps).log[a].applied| == 1
      {
        OneKeyPerMint(flight, steps, a, b);
      }
    } else {
      var steps := MintsTwice(flight);
    }
  }

  datatype Attempt = Attempt(waiting: seq<Step>, during: seq<Step>, heard: bool)

  /** What the outside world decides in one run of the command. `freshId` is the
      random identity a new mint would get. */
  datatype Io = Io(freshId: nat, revoked: bool, attempts: seq<Attempt>, retryAfter: int, keyed: bool)

  datatype Result =
    | Key(ref: Ref)
    | Kept
    | Rejected(ref: Ref, status: int)
    | Cooldown
    | NoDeadline
    | Unreadable
    | Expired
    | Ambiguous
    | Died

  const MAX_ATTEMPTS := 4

  /** What a settled row tells its caller. */
  function Report(ref: Ref, row: Row): Result
    requires row.status.Some?
  {
    if !Succeeded(row.status.value) then Rejected(ref, row.status.value)
    else if row.keyed then Key(ref)
    else Unreadable
  }

  /** The network answers the first attempt at once, with a readable body. */
  predicate Answering(io: Io) {
    io.attempts != [] && io.attempts[0].waiting == [] && io.attempts[0].heard && io.keyed
  }

  ghost function ChainFrom(refs: set<Ref>, ref: Ref): set<Ref> {
    set other <- refs | other.mint == ref.mint && ref.attempt <= other.attempt
  }

  class Registrar {
    const flight: nat
    // The database.
    var apiKey: Option<Ref>
    var mint: Option<nat>
    var rows: map<Ref, Row>
    // The server, the network and the clock.
    var log: map<Ref, Entry>
    var wire: set<Packet>
    var now: int
    // History.
    ghost var world: World
    ghost var trace: seq<Step>
    ghost var worlds: seq<World>

    /** The fields agree with this world. */
    ghost predicate Shows(w: World)
      reads this
    {
      apiKey == w.apiKey && mint == w.mint && rows == w.rows && log == w.log && wire == w.wire && now == w.now
    }

    ghost predicate Valid()
      reads this
    {
      flight <= FLIGHT && world.flight == flight && Shows(world) && Ran(flight, trace, worlds, world)
    }

    /** Whatever the command has done so far is a legal run. */
    lemma IsRun()
      requires Valid()
      ensures Legal(flight, trace) && After(flight, trace) == world && Inv(world)
    {
      RanLegal(flight, trace, worlds, world);
      EveryRunKeepsInv(flight, trace);
    }

    constructor (flight: nat)
      requires flight <= FLIGHT
      ensures Valid() && trace == []
    {
      this.flight := flight;
      apiKey, mint, rows, log, wire, now := None, None, map[], map[], {}, 0;
      world, trace, worlds := Start(flight), [], [Start(flight)];
    }

    /** Adds to the run the step that has just been made on the fields. */
    ghost method Record(step: Step)
      requires flight <= FLIGHT && world.flight == flight && Ran(flight, trace, worlds, world)
      requires Enabled(world, step) && Shows(Apply(world, step))
      modifies this`world, this`trace, this`worlds
      ensures Valid() && trace == old(trace) + [step] && world == Apply(old(world), step)
    {
      RunsOn(flight, trace, worlds, world, step);
      world := Apply(world, step);
      trace, worlds := trace + [step], worlds + [world];
    }

    method AwaitOne(event: Step)
      requires Valid()
      modifies this
      ensures Valid() && old(trace) <= trace
      ensures apiKey == old(apiKey) && mint == old(mint) && rows == old(rows) && world.asking == old(world.asking)
              && old(now) <= now
      ensures world.stored == old(world.stored) && world.used == old(world.used)
      ensures forall ref <- old(log) :: ref in log && log[ref] == old(log[ref])
    {
      match event
      case Tick(elapsed) =>
        now := now + elapsed;
        Record(event);
      case Deliver(packet, status) =>
        if packet in wire && now <= packet.startedAt + flight && Definitive(status) {
          Arrive(packet, status);
        }
      case Lose(packet) =>
        if packet in wire {
          wire := wire - {packet};
          Record(event);
        }
      case _ =>
    }

    lemma DecisionsStand(packet: Packet, status: int)
      requires Valid() && Enabled(world, Deliver(packet, status))
      ensures forall ref <- log :: ref in Receive(log, packet, now, status)
      ensures forall ref <- log :: Receive(log, packet, now, status)[ref] == log[ref]
    {
      IsRun();
      forall ref <- log ensures ref in Receive(log, packet, now, status)
                                && Receive(log, packet, now, status)[ref] == log[ref] {
        LogStays(world, Deliver(packet, status), ref);
      }
    }

    method Arrive(packet: Packet, status: int)
      requires Valid() && Enabled(world, Deliver(packet, status))
      modifies this
      ensures Valid() && trace == old(trace) + [Deliver(packet, status)]
              && world == Apply(old(world), Deliver(packet, status))
      ensures forall ref <- old(log) :: ref in log && log[ref] == old(log[ref])
    {
      DecisionsStand(packet, status);
      log, wire := Receive(log, packet, now, status), wire - {packet};
      Record(Deliver(packet, status));
    }

    method Await(events: seq<Step>)
      requires Valid()
      modifies this
      ensures Valid() && old(trace) <= trace
      ensures apiKey == old(apiKey) && mint == old(mint) && rows == old(rows) && world.asking == old(world.asking)
              && old(now) <= now
      ensures world.stored == old(world.stored) && world.used == old(world.used)
      ensures events == [] ==> now == old(now)
      ensures forall ref <- old(log) :: ref in log && log[ref] == old(log[ref])
    {
      for i := 0 to |events|
        invariant Valid() && old(trace) <= trace
        invariant apiKey == old(apiKey) && mint == old(mint) && rows == old(rows) && world.asking == old(world.asking)
                  && old(now) <= now
        invariant world.stored == old(world.stored) && world.used == old(world.used)
        invariant i == 0 ==> now == old(now)
        invariant forall ref <- old(log) :: ref in log && log[ref] == old(log[ref])
      {
        AwaitOne(events[i]);
      }
    }

    method Die()
      requires Valid()
      modifies this
      ensures Valid() && old(trace) <= trace && world == Apply(old(world), Crash)
    {
      Record(Crash);
    }

    method BeginAction(ref: Ref)
      requires Valid() && Enabled(world, Begin(ref))
      modifies this
      ensures Valid() && old(trace) <= trace && world == Apply(old(world), Begin(ref))
    {
      rows := rows[ref := Row(now, None, 0, false)];
      Record(Begin(ref));
    }

    method CompleteAction(ref: Ref, io: Io)
      requires Valid() && Enabled(world, Settle(ref, io.retryAfter, io.keyed))
      modifies this
      ensures Valid() && old(trace) <= trace && world == Apply(old(world), Settle(ref, io.retryAfter, io.keyed))
    {
      var status := log[ref].status;
      rows := rows[ref := rows[ref].(status := Some(status), retryAfter := io.retryAfter,
                                     keyed := io.keyed && Succeeded(status))];
      Record(Settle(ref, io.retryAfter, io.keyed));
    }

    method TransportOnce(ref: Ref)
      requires Valid() && Enabled(world, Transport(ref))
      modifies this
      ensures Valid() && old(trace) <= trace && world == Apply(old(world), Transport(ref))
    {
      wire := wire + {Message(ref, KeyRequest(ref), now)};
      Record(Transport(ref));
    }

    /** Finds the identity this run must use: the first of the mint's chain that
        is not a throttled request past its cooldown. */
    method ResumeChain(id: nat) returns (r: Option<Result>, ref: Ref)
      requires Valid() && mint == Some(id)
      modifies this
      ensures Valid() && old(trace) <= trace
      ensures apiKey == old(apiKey) && mint == old(mint) && log == old(log) && now == old(now) && old(now) <= now
      ensures world.stored == old(world.stored) && world.used == old(world.used)
      ensures r.None? ==> ref.mint == id && ref in rows && !Throttled(rows[ref]) && old(rows.Keys) <= rows.Keys
      ensures r.None? ==> forall other <- old(rows) :: rows[other] == old(rows)[other]
      ensures r.Some? ==> r.value in {Died, Cooldown, NoDeadline} && rows == old(rows)
      ensures r.Some? && !r.value.Died? ==>
                && ref.mint == id && ref in rows && Throttled(rows[ref])
                && (now < rows[ref].retryAfter || rows[ref].retryAfter == 0)
    {
      r, ref := None, Ref(id, 0);
      while ref in rows && Throttled(rows[ref])
        invariant Valid() && trace == old(trace) && world == old(world)
        invariant ref.mint == id
        invariant ref.attempt > 0 ==>
                    var previous := Ref(id, ref.attempt - 1);
                    previous in rows && Throttled(rows[previous]) && 0 != rows[previous].retryAfter <= now
        decreases ChainFrom(rows.Keys, ref)
      {
        if rows[ref].retryAfter == 0 {
          return Some(NoDeadline), ref;
        }
        if now < rows[ref].retryAfter {
          return Some(Cooldown), ref;
        }
        assert ref in ChainFrom(rows.Keys, ref);
        ref := Ref(id, ref.attempt + 1);
      }
      if ref !in rows {
        if * {
          Die();
          return Some(Died), ref;
        }
        BeginAction(ref);
      }
    }

    /** Sends the pending request until it is answered or its window closes. */
    method SendPending(ref: Ref, io: Io) returns (r: Result)
      requires Valid() && mint == Some(ref.mint) && ref in rows && rows[ref].status.None?
      modifies this
      ensures Valid() && old(trace) <= trace
      ensures apiKey == old(apiKey) && mint == old(mint) && world.stored == old(world.stored)
              && world.used == old(world.used)
      ensures r in {Key(ref), Expired, Ambiguous, Died, Unreadable} || (r.Rejected? && r.ref == ref)
      ensures r.Key? || r.Rejected? || r.Unreadable? ==>
                ref in rows && rows[ref].status.Some? && r == Report(ref, rows[ref])
      ensures old(Minted(world, ref)) && old(now < rows[ref].createdAt + REPLAY_WINDOW) && Answering(io) ==>
                r in {Key(ref), Died}
    {
      var sent, heard := Attempts(ref, io);
      if !heard {
        return if sent == 0 then Expired else Ambiguous;
      }
      if * {
        Die();
        return Died;
      }
      IsRun();
      CompleteAction(ref, io);
      r := Report(ref, rows[ref]);
    }

    /** Up to four transports of the same request, inside its replay window. */
    method Attempts(ref: Ref, io: Io) returns (sent: nat, heard: bool)
      requires Valid() && mint == Some(ref.mint) && ref in rows && rows[ref].status.None?
      modifies this
      ensures Valid() && old(trace) <= trace
      ensures apiKey == old(apiKey) && mint == old(mint) && rows == old(rows) && world.stored == old(world.stored)
              && world.used == old(world.used)
      ensures sent <= MAX_ATTEMPTS
      ensures heard ==> ref in log && world.asking == Some(ref)
      ensures old(Minted(world, ref)) ==> Minted(world, ref)
      ensures old(Minted(world, ref)) && old(now < rows[ref].createdAt + REPLAY_WINDOW) && Answering(io) ==> heard
    {
      sent, heard := 0, false;
      while sent < MAX_ATTEMPTS && !heard
        invariant Valid() && old(trace) <= trace
        invariant apiKey == old(apiKey) && mint == old(mint) && rows == old(rows) && world.stored == old(world.stored)
                  && world.used == old(world.used)
        invariant sent <= MAX_ATTEMPTS
        invariant heard ==> ref in log && world.asking == Some(ref)
        invariant old(Minted(world, ref)) ==> Minted(world, ref)
        invariant sent == 0 ==> !heard && now == old(now)
        invariant old(Minted(world, ref)) && old(now < rows[ref].createdAt + REPLAY_WINDOW) && Answering(io) ==>
                    0 < sent ==> heard
      {
        var attempt := if sent < |io.attempts| then io.attempts[sent] else Attempt([], [], false);
        Await(attempt.waiting);
        if rows[ref].createdAt + REPLAY_WINDOW <= now {
          break;
        }
        TransportOnce(ref);
        Await(attempt.during);
        heard := attempt.heard && ref in log;
        sent := sent + 1;
      }
    }

    /** One bootstrap step: replays, retries or first sends the mint's request. */
    method BootstrapAction(id: nat, io: Io, ghost key: Option<Ref>) returns (r: Result)
      requires Valid() && mint == Some(id)
      requires key.Some? ==> key.value.mint == id && Recoverable(world, key.value)
      modifies this
      ensures Valid() && old(trace) <= trace
      ensures apiKey == old(apiKey) && mint == old(mint) && world.stored == old(world.stored)
              && world.used == old(world.used)
      ensures !r.Kept?
      ensures r.Key? || r.Rejected? ==>
                r.ref.mint == id && r.ref in rows && rows[r.ref].status.Some? && r == Report(r.ref, rows[r.ref])
      ensures r.Rejected? ==> Refused(r.status)
      ensures key.Some? && Answering(io) ==> r in {Key(key.value), Died}
    {
      var early, ref := ResumeChain(id);
      IsRun();
      if key.Some? && ref in rows && ref.mint == id {
        ChainEndsAtKey(world, key.value, ref);
      }
      if early.Some? {
        return early.value;
      }
      if rows[ref].status.Some? {
        return Report(ref, rows[ref]);
      }
      r := SendPending(ref, io);
      IsRun();
    }

    method SaveFreshMint(id: nat)
      requires Valid() && Enabled(world, SaveMint(id))
      modifies this
      ensures Valid() && old(trace) <= trace && world == Apply(old(world), SaveMint(id))
    {
      mint := Some(id);
      Record(SaveMint(id));
    }

    /** One transaction stores the key and lets its mint go. */
    method StoreMintedKey(ref: Ref) returns (r: Result)
      requires Valid() && Enabled(world, StoreKey(ref))
      modifies this
      ensures Valid() && old(trace) <= trace
      ensures (r == Key(ref) && apiKey == Some(ref) && mint.None?)
           || (r.Died? && apiKey == old(apiKey) && mint == old(mint))
    {
      if * {
        Die();
        return Died;
      }
      apiKey, mint := Some(ref), None;
      Record(StoreKey(ref));
      return Key(ref);
    }

    method ForgetMint(ref: Ref, status: int) returns (r: Result)
      requires Valid() && Enabled(world, ReleaseMint(ref))
      modifies this
      ensures Valid() && old(trace) <= trace && apiKey == old(apiKey)
      ensures (r == Rejected(ref, status) && mint.None?) || (r.Died? && mint == old(mint))
    {
      if * {
        Die();
        return Died;
      }
      mint := None;
      Record(ReleaseMint(ref));
      return Rejected(ref, status);
    }

    /** The whole command: keeps a working key, resumes an open mint or starts one. */
    method UnderworldKey(io: Io, ghost key: Option<Ref>) returns (r: Result)
      requires Valid() && io.freshId !in world.used
      requires key.Some? ==> Recoverable(world, key.value)
      modifies this
      ensures Valid() && old(trace) <= trace
      ensures r.Kept? <==> old(apiKey.Some?) && !io.revoked
      ensures r.Kept? ==> world == old(world)
      ensures r.Key? ==> apiKey == Some(r.ref) && mint.None?
      ensures !r.Key? ==> apiKey == old(apiKey)
      ensures r.Rejected? && r.status != THROTTLED ==> mint.None?
      ensures !r.Key? && !(r.Rejected? && r.status != THROTTLED) && old(mint.Some?) ==> mint == old(mint)
      ensures key.Some? && Answering(io) && !r.Kept? && !r.Died? ==> apiKey == key && mint.None?
    {
      if apiKey.Some? && !io.revoked {
        return Kept;
      }
      if mint.None? {
        if * {
          Die();
          return Died;
        }
        SaveFreshMint(io.freshId);
      }
      r := BootstrapAction(mint.value, io, key);
      if r.Key? {
        r := StoreMintedKey(r.ref);
      } else if r.Rejected? && r.status != THROTTLED {
        r := ForgetMint(r.ref, r.status);
      }
    }
  }
}
