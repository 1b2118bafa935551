/** The game server as the bot sees it: requests travel with an idempotency key,
    the first one received under a key decides the outcome, and later ones
    replay it for as long as the server remembers the key. */
module Upstream {

  // Seconds. The bot stops replaying an hour before the server may forget a key.
  const REPLAY_WINDOW := 82_800
  const SERVER_RETENTION := 86_400
  // Transport must start this long before the replay window closes.
  const CUTOFF := 60
  // The longest flight after which the server surely still remembers the key.
  const REMEMBERED := SERVER_RETENTION - REPLAY_WINDOW + CUTOFF

  /** The network's delays: the longest from starting a request to its effect, and
      from the moment a list is read on the server to the moment its answer is here. */
  datatype Network = Network(flight: nat, lag: nat)

  /** Both delays together fit in the minute between the last transport and the end
      of the replay window. */
  predicate Punctual(net: Network) { net.flight + net.lag <= CUTOFF }

  datatype Request = Request(verb: string, path: string, body: seq<int>)

  datatype Message<Id> = Message(id: Id, request: Request, startedAt: int)

  /** What the server remembers of one key: the outcome it first gave, and every
      request it has ever applied under the key. */
  datatype Entry = Entry(seenAt: int, status: int, applied: seq<Request>)

  predicate Succeeded(status: int) { 200 <= status < 300 }

  predicate Refused(status: int) { 400 <= status < 500 }

  /** A remembered key replays its stored outcome. A new or forgotten one is
      decided afresh, so a late duplicate really is applied a second time. */
  function Receive<Id>(log: map<Id, Entry>, message: Message<Id>, now: int, status: int): map<Id, Entry>
  {
    var id := message.id;
    if id in log && now < log[id].seenAt + SERVER_RETENTION then log
    else
      var before := if id in log then log[id].applied else [];
      var applied := if Succeeded(status) then before + [message.request] else before;
      log[id := Entry(now, status, applied)]
  }

  /** The entry records exactly one decision, on exactly this request. */
  ghost predicate DecidedOnce(entry: Entry, request: Request) {
    && (Succeeded(entry.status) || Refused(entry.status))
    && entry.applied == if Succeeded(entry.status) then [request] else []
  }
}
