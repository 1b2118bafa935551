/** Letters of marque: their admission, the durable record of what was issued and
    what was earned, and the loss limit over whole runs. */
module Marque {
  import opened Options
  import opened Pence

  const LOSS_LIMIT := 300_000
  const DAY := 86400

  datatype Quote = Quote(
    zone: string,
    addedBps: int,
    hours: int,
    cost: int,
    expectedPrize: int,
    passages: real,
    bpsInForce: int,
    floorApplied: bool)

  datatype Letter = Letter(id: string, zone: string, cost: int, prize: int, expires: int)

  datatype Outcome = Outcome(zone: string, expiredAt: int, cost: int, prize: int)

  datatype Returns = Returns(count: nat, cost: int, prize: int, latestExpiry: int)

  /** What the record of issues says about the money at risk. */
  datatype Tally = Tally(inForce: nat, inForceCost: int, expiredCost: int, expiredPrize: int)

  /** Everything else an admission looks at. */
  datatype Setting = Setting(
    exposed: bool,
    stopped: bool,
    now: int,
    backoff: int,
    basis: Returns,
    zone: Returns,
    global: Returns,
    liquid: int,
    available: int)

  datatype Reason =
    | Accepted | Exposed | Stopped | InForce | Backoff | ZoneLoss | Floor | Traffic | ZoneCap | Prize
    | GlobalWait | GlobalReentry | LossLimit | Liquidity

  predicate MoneyRange(x: int) { 0 <= x <= MAXIMUM_PENCE }

  predicate ValidQuote(quote: Quote, zone: string) {
    && quote.zone == zone != ""
    && quote.addedBps == 500
    && quote.hours == 60
    && 0 < quote.cost <= MAXIMUM_PENCE
    && MoneyRange(quote.expectedPrize)
    && 0.0 <= quote.passages
    && 0 <= quote.bpsInForce <= 5_000
  }

  predicate ValidLetter(letter: Letter) { letter.zone != "" && MoneyRange(letter.cost) && MoneyRange(letter.prize) }

  predicate ValidOutcome(outcome: Outcome) { MoneyRange(outcome.cost) && MoneyRange(outcome.prize) }

  function EvaluateMarque(quote: Quote, tally: Tally, at: Setting): Reason {
    if at.exposed then Exposed
    else if at.stopped then Stopped
    else if tally.inForce > 0 || tally.inForceCost > 0 then InForce
    else if at.now < at.backoff then Backoff
    else if at.zone.count >= 3 && at.zone.prize < at.zone.cost && at.basis != at.zone then ZoneLoss
    else if quote.floorApplied then Floor
    else if quote.passages < 1.0 then Traffic
    else if quote.bpsInForce + quote.addedBps > 5_000 then ZoneCap
    else if quote.expectedPrize * 2 < quote.cost * 3 then Prize
    else if at.global.count > 0 && at.global.prize < at.global.cost && at.now < at.global.latestExpiry + DAY
    then GlobalWait
    else if at.global.count > 0 && at.global.prize * 100 < at.global.cost * 105 && quote.expectedPrize < quote.cost * 2
    then GlobalReentry
    else if tally.expiredCost - tally.expiredPrize + quote.cost > LOSS_LIMIT then LossLimit
    else if quote.cost * 20 > at.liquid then Liquidity
    else Accepted
  }

  // ------------------------------------------------------------- totals over maps

  ghost function Total(m: map<string, int>): int
    decreases m.Keys
  {
    if m == map[] then 0
    else
      var id :| id in m;
      m[id] + Total(m - {id})
  }

  lemma {:induction false} TotalRemove(m: map<string, int>, id: string)
    requires id in m
    ensures Total(m) == m[id] + Total(m - {id})
    decreases m.Keys
  {
    var first :| first in m && Total(m) == m[first] + Total(m - {first});
    if first != id {
      TotalRemove(m - {first}, id);
      TotalRemove(m - {id}, first);
      assert m - {first} - {id} == m - {id} - {first};
    }
  }

  lemma TotalPut(m: map<string, int>, id: string, value: int)
    ensures Total(m[id := value]) == Total(m) + value - if id in m then m[id] else 0
  {
    TotalRemove(m[id := value], id);
    if id in m {
      TotalRemove(m, id);
      assert m[id := value] - {id} == m - {id};
    } else {
      assert m[id := value] - {id} == m;
    }
  }

  lemma {:induction false} TotalGrows(m: map<string, int>, n: map<string, int>)
    requires m.Keys <= n.Keys && forall id <- n :: if id in m then m[id] <= n[id] else 0 <= n[id]
    ensures Total(m) <= Total(n)
    decreases n.Keys
  {
    if n != map[] {
      var id :| id in n;
      TotalRemove(n, id);
      if id in m {
        TotalRemove(m, id);
        TotalGrows(m - {id}, n - {id});
      } else {
        TotalGrows(m, n - {id});
      }
    } else {
      assert m == map[];
    }
  }

  function LetterCosts(letters: map<string, Letter>): map<string, int> {
    map id | id in letters :: letters[id].cost
  }

  function Costs(outcomes: map<string, Outcome>): map<string, int> { map id | id in outcomes :: outcomes[id].cost }

  function Prizes(outcomes: map<string, Outcome>): map<string, int> { map id | id in outcomes :: outcomes[id].prize }

  // ---------------------------------------------------------------- durable record

  datatype Pending = NoPending | Quoted(zone: string, cost: int) | Issued(zone: string, id: string)

  /** The `_marque_outcomes`, `_marque_active` and `_marque_pending` records. */
  datatype Record = Record(outcomes: map<string, Outcome>, active: map<string, Letter>, pending: Pending)

  /** A pass: the letters listed, whether that list is current, and, when the clock
      is valid, the server time its request started at and the server time now. */
  datatype Pass = Pass(listed: seq<Letter>, current: bool, clock: Option<(int, int)>)

  datatype Mission =
    | NoMission
    | Admitted(quote: Quote)
    | Staged(quote: Quote)
    // Possibly transported and not yet resolved.
    | Sent(quote: Quote)
    | Done(quote: Quote, issued: Option<string>)
    // The admission was retired by a quote increase.
    | Dropped

  function Settle(letter: Letter): Outcome { Outcome(letter.zone, letter.expires, letter.cost, letter.prize) }

  function Merge(outcomes: map<string, Outcome>, listed: seq<Letter>, observedAt: int): map<string, Outcome> {
    if listed == [] then outcomes
    else
      var last, merged := listed[|listed| - 1], Merge(outcomes, listed[..|listed| - 1], observedAt);
      if last.expires <= observedAt then merged[last.id := Settle(last)] else merged
  }

  function Retain(active: map<string, Letter>, listed: seq<Letter>, observedAt: int): map<string, Letter> {
    if listed == [] then active
    else
      var last, retained := listed[|listed| - 1], Retain(active, listed[..|listed| - 1], observedAt);
      if observedAt < last.expires then retained[last.id := last] else retained - {last.id}
  }

  predicate Listed(listed: seq<Letter>, id: string) { exists letter <- listed :: letter.id == id }

  function MissionPending(pending: Pending, mission: Mission): Pending {
    match mission
    case Admitted(quote) => Quoted(quote.zone, quote.cost)
    case Staged(quote) => Quoted(quote.zone, quote.cost)
    case Sent(quote) => Quoted(quote.zone, quote.cost)
    case Done(quote, issued) => if issued.Some? then Issued(quote.zone, issued.value) else NoPending
    case _ => if pending.Issued? then pending else NoPending
  }

  function NextPending(pending: Pending, mission: Mission, pass: Pass): Pending {
    var next := MissionPending(pending, mission);
    if next.Issued? && pass.current && Listed(pass.listed, next.id) then NoPending else next
  }

  /** One pass over the record, before its checks. */
  function Recorded(r: Record, pass: Pass, mission: Mission): Record {
    var next := r.(pending := NextPending(r.pending, mission, pass));
    if pass.current && pass.clock.Some? then
      next.(outcomes := Merge(r.outcomes, pass.listed, pass.clock.value.0),
            active := Retain(r.active, pass.listed, pass.clock.value.0))
    else next
  }

  ghost predicate OutcomesInRange(outcomes: map<string, Outcome>) {
    && (forall id <- outcomes :: ValidOutcome(outcomes[id]))
    && Total(Costs(outcomes)) <= MAXIMUM_PENCE
    && Total(Prizes(outcomes)) <= MAXIMUM_PENCE
  }

  ghost predicate Sound(r: Record) {
    OutcomesInRange(r.outcomes) && forall id <- r.active :: r.active[id].id == id && ValidLetter(r.active[id])
  }

  /** The letters that count as in force: the retained ones and the current list's. */
  function InForceLetters(active: map<string, Letter>, listed: seq<Letter>, now: int): map<string, Letter> {
    if listed == [] then active
    else
      var last, letters := listed[|listed| - 1], InForceLetters(active, listed[..|listed| - 1], now);
      if now < last.expires then letters[last.id := last] else letters
  }

  ghost predicate EvidenceSound(r: Record, letters: map<string, Letter>, now: int) {
    && OutcomesInRange(r.outcomes)
    && (forall id <- letters :: letters[id].id == id && ValidLetter(letters[id]) && now < letters[id].expires)
    && Total(LetterCosts(letters)) <= MAXIMUM_PENCE
  }

  ghost predicate EvidenceIs(r: Record, pass: Pass, tally: Tally) {
    && pass.current
    && pass.clock.Some?
    && var letters := InForceLetters(r.active, pass.listed, pass.clock.value.1);
       && EvidenceSound(r, letters, pass.clock.value.1)
       && tally == Tally(|letters|, Total(LetterCosts(letters)), Total(Costs(r.outcomes)), Total(Prizes(r.outcomes)))
  }

  datatype Verdict = Clear | Increased | Declined

  /** The check before staging and again, against a new quote, before the first send. */
  function Preflight(frozen: Quote, quote: Quote, tally: Option<Tally>, at: Setting): Verdict {
    if tally.None? || !ValidQuote(quote, frozen.zone) || !ValidQuote(frozen, frozen.zone) then Declined
    else if quote.cost > frozen.cost then Increased
    else if EvaluateMarque(quote, tally.value, at) != Accepted || quote.cost > at.available then Declined
    else Clear
  }

  // ---------------------------------------------------------------- the recorder

  lemma CashPair(a: int, b: int)
    requires 0 <= a && 0 <= b
    ensures CashTotal([a, b]) == Min(MAX_INT64, a + b)
  {
    assert [a, b][..1] == [a] && [a][..0] == [];
    assert Sum([a]) == a && Sum([a, b]) == a + b;
  }

  /** A set of keys still to visit, and what the visited ones hold. */
  ghost predicate Split<T>(seen: map<string, T>, rest: set<string>, all: map<string, T>) {
    && (forall id :: id in all <==> id in seen || id in rest)
    && (forall id <- seen :: id !in rest && seen[id] == all[id])
  }

  lemma SplitAll<T>(seen: map<string, T>, all: map<string, T>)
    requires Split(seen, {}, all)
    ensures seen == all
  {
  }

  ghost predicate Tallied(seen: map<string, Outcome>, cost: int, prize: int) {
    && (forall id <- seen :: ValidOutcome(seen[id]))
    && 0 <= Total(Costs(seen)) && cost == Min(MAX_INT64, Total(Costs(seen)))
    && 0 <= Total(Prizes(seen)) && prize == Min(MAX_INT64, Total(Prizes(seen)))
  }

  method AddOutcome(cost: int, prize: int, outcome: Outcome, ghost seen: map<string, Outcome>, ghost id: string)
      returns (costs: int, prizes: int)
    requires Tallied(seen, cost, prize) && id !in seen && ValidOutcome(outcome)
    ensures Tallied(seen[id := outcome], costs, prizes)
  {
    CashPair(cost, outcome.cost);
    CashPair(prize, outcome.prize);
    TotalPut(Costs(seen), id, outcome.cost);
    TotalPut(Prizes(seen), id, outcome.prize);
    assert Costs(seen[id := outcome]) == Costs(seen)[id := outcome.cost];
    assert Prizes(seen[id := outcome]) == Prizes(seen)[id := outcome.prize];
    costs := GrowthCashTotal([cost, outcome.cost]);
    prizes := GrowthCashTotal([prize, outcome.prize]);
  }

  /** Accumulates in any order; the saturating totals are the capped true ones. */
  method OutcomeTotals(outcomes: map<string, Outcome>) returns (ok: bool, cost: int, prize: int)
    ensures ok <==> forall id <- outcomes :: ValidOutcome(outcomes[id])
    ensures ok ==> Tallied(outcomes, cost, prize)
  {
    cost, prize := 0, 0;
    var rest := outcomes.Keys;
    ghost var seen: map<string, Outcome> := map[];
    while rest != {}
      invariant Split(seen, rest, outcomes) && Tallied(seen, cost, prize)
      decreases rest
    {
      var id :| id in rest;
      rest := rest - {id};
      if !ValidOutcome(outcomes[id]) {
        return false, 0, 0;
      }
      cost, prize := AddOutcome(cost, prize, outcomes[id], seen, id);
      seen := seen[id := outcomes[id]];
    }
    SplitAll(seen, outcomes);
    ok := true;
  }

  ghost predicate HeldTally(seen: map<string, Letter>, now: int, cost: int) {
    && (forall id <- seen :: seen[id].id == id && ValidLetter(seen[id]) && now < seen[id].expires)
    && 0 <= Total(LetterCosts(seen)) && cost == Min(MAX_INT64, Total(LetterCosts(seen)))
  }

  method AddLetter(cost: int, letter: Letter, ghost seen: map<string, Letter>, ghost now: int) returns (costs: int)
    requires HeldTally(seen, now, cost) && letter.id !in seen && ValidLetter(letter) && now < letter.expires
    ensures HeldTally(seen[letter.id := letter], now, costs)
  {
    CashPair(cost, letter.cost);
    TotalPut(LetterCosts(seen), letter.id, letter.cost);
    assert LetterCosts(seen[letter.id := letter]) == LetterCosts(seen)[letter.id := letter.cost];
    costs := GrowthCashTotal([cost, letter.cost]);
  }

  method InForceTotal(letters: map<string, Letter>, now: int) returns (ok: bool, cost: int)
    ensures ok <==>
              forall id <- letters :: letters[id].id == id && ValidLetter(letters[id]) && now < letters[id].expires
    ensures ok ==> HeldTally(letters, now, cost)
  {
    cost := 0;
    var rest := letters.Keys;
    ghost var seen: map<string, Letter> := map[];
    while rest != {}
      invariant Split(seen, rest, letters) && HeldTally(seen, now, cost)
      decreases rest
    {
      var id :| id in rest;
      rest := rest - {id};
      if !ValidLetter(letters[id]) || letters[id].id != id || now >= letters[id].expires {
        return false, 0;
      }
      cost := AddLetter(cost, letters[id], seen, now);
      seen := seen[id := letters[id]];
    }
    SplitAll(seen, letters);
    ok := true;
  }

  class Recorder {
    var outcomes: map<string, Outcome>
    var active: map<string, Letter>
    var pending: Pending

    function Books(): Record
      reads this
    {
      Record(outcomes, active, pending)
    }

    /** Either the whole pass is recorded or nothing is. */
    method RecordMarques(pass: Pass, mission: Mission) returns (ok: bool)
      modifies this
      ensures ok <==> Sound(Recorded(old(Books()), pass, mission))
      ensures Books() == if ok then Recorded(old(Books()), pass, mission) else old(Books())
    {
      var settled, retained := outcomes, active;
      if pass.clock.Some? && pass.current {
        settled := MergeMarqueOutcomes(settled, pass.listed, pass.clock.value.0);
        retained := RetainActive(retained, pass.listed, pass.clock.value.0);
      }
      ok := Admissible(settled, retained);
      if !ok {
        return;
      }
      outcomes, active := settled, retained;
      NotePending(pass, mission);
    }

    method Admissible(settled: map<string, Outcome>, retained: map<string, Letter>) returns (ok: bool)
      ensures forall p :: ok <==> Sound(Record(settled, retained, p))
    {
      var valid, cost, prize := OutcomeTotals(settled);
      if !valid || exists id <- retained :: retained[id].id != id || !ValidLetter(retained[id]) {
        return false;
      }
      ok := cost <= MAXIMUM_PENCE && prize <= MAXIMUM_PENCE;
    }

    method NotePending(pass: Pass, mission: Mission)
      modifies `pending
      ensures pending == NextPending(old(pending), mission, pass)
    {
      pending := MissionPending(pending, mission);
      if pending.Issued? && pass.current {
        var listed := Appears(pass.listed, pending.id);
        if listed {
          pending := NoPending;
        }
      }
    }

    method Appears(listed: seq<Letter>, id: string) returns (found: bool)
      ensures found == Listed(listed, id)
    {
      for i := 0 to |listed|
        invariant forall k :: 0 <= k < i ==> listed[k].id != id
      {
        if listed[i].id == id {
          return true;
        }
      }
      found := false;
    }

    method MergeMarqueOutcomes(settled: map<string, Outcome>, listed: seq<Letter>, observedAt: int)
        returns (merged: map<string, Outcome>)
      ensures merged == Merge(settled, listed, observedAt)
    {
      merged := settled;
      for i := 0 to |listed|
        invariant merged == Merge(settled, listed[..i], observedAt)
      {
        assert listed[..i + 1][..i] == listed[..i];
        if observedAt >= listed[i].expires {
          merged := merged[listed[i].id := Settle(listed[i])];
        }
      }
      assert listed[..|listed|] == listed;
    }

    method RetainActive(held: map<string, Letter>, listed: seq<Letter>, observedAt: int)
        returns (retained: map<string, Letter>)
      ensures retained == Retain(held, listed, observedAt)
    {
      retained := held;
      for i := 0 to |listed|
        invariant retained == Retain(held, listed[..i], observedAt)
      {
        assert listed[..i + 1][..i] == listed[..i];
        if observedAt < listed[i].expires {
          retained := retained[listed[i].id := listed[i]];
        } else {
          retained := retained - {listed[i].id};
        }
      }
      assert listed[..|listed|] == listed;
    }

    /** What the evidence for an admission adds up to, or nothing when it is unsound. */
    method Evidence(pass: Pass) returns (evidence: Option<Tally>)
      ensures evidence.Some? ==> EvidenceIs(Books(), pass, evidence.value)
      ensures evidence.None? ==> forall tally :: !EvidenceIs(Books(), pass, tally)
    {
      if !pass.current || pass.clock.None? {
        return None;
      }
      var now := pass.clock.value.1;
      var letters := active;
      for i := 0 to |pass.listed|
        invariant letters == InForceLetters(active, pass.listed[..i], now)
      {
        assert pass.listed[..i + 1][..i] == pass.listed[..i];
        if now < pass.listed[i].expires {
          letters := letters[pass.listed[i].id := pass.listed[i]];
        }
      }
      assert pass.listed[..|pass.listed|] == pass.listed;
      var valid, held := InForceTotal(letters, now);
      if !valid {
        return None;
      }
      var ok, cost, prize := OutcomeTotals(outcomes);
      if !ok || held > MAXIMUM_PENCE || cost > MAXIMUM_PENCE || prize > MAXIMUM_PENCE {
        return None;
      }
      evidence := Some(Tally(|letters|, held, cost, prize));
    }
  }
}
