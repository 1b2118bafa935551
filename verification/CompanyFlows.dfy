/** The permanent history of company cash flows, kept by writing only what changes
    between passes, against a classification of the whole ledger from scratch. */
module CompanyFlows {
  import opened Options
  import opened Pence
  import opened Runs

  datatype Entry = Entry(
    id: string,
    debit: string,
    credit: string,
    amount: int,
    reason: string,
    createdAt: Option<int>,
    futures: string,
    underwriting: string)

  datatype Flow = Flow(reason: string, amount: int, createdAt: int)

  const FAMILIES := ["principal", "disbursement", "escrow", "collateral_release", "refund", "future", "underwrit"]

  // Reasons that settlements carry, and capital movements that are no profit.
  const EXCLUDED := {
    "spot_market_buy", "spot_market_sell", "port_customs_duty",
    "royal_charter_payout", "admiralty_charter_payout", "freight_contract_reward_payout", "passenger_fare_payout",
    "ach_remittance_fee", "freight_contract_default_collateral_seizure",
    "insurance_premium_payout", "insurance_claim_payout",
    "bank_draft", "seed_capital", "initial_capital",
    "shipyard_construction", "shipyard_turnkey_markup", "ship_cannon_fitting",
    "ship_purchase", "ship_sale", "hull_purchase", "hull_sale"
  }

  predicate Occurs(text: string, part: string, i: nat) { i <= |text| - |part| && text[i..i + |part|] == part }

  predicate Contains(text: string, part: string) { exists i: nat | i <= |text| :: Occurs(text, part, i) }

  predicate HasPrefix(text: string, prefix: string) { prefix <= text }

  predicate Classified(reason: string) {
    && (forall family <- FAMILIES :: !Contains(reason, family))
    && reason !in EXCLUDED
    && !HasPrefix(reason, "admiralty_commission_")
    && !HasPrefix(reason, "commission_")
    && !Contains(reason, "provision")
  }

  /** The signed amount an entry adds to real net profit, if it adds any. */
  function CompanyLedgerFlow(entry: Entry, owned: set<string>, claimed: set<string>): Option<int> {
    if entry.id == "" || entry.reason == "" || entry.amount <= 0 || entry.createdAt.None? || entry.id in claimed
       || (entry.debit in owned <==> entry.credit in owned) then None
    else if entry.futures != "" || entry.underwriting != "" then None
    else if !Classified(entry.reason) then None
    else if entry.debit in owned then Some(-entry.amount)
    else Some(entry.amount)
  }

  type Ledger = map<string, Entry>

  ghost predicate Sound(ledger: Ledger) { forall id <- ledger :: id != "" && ledger[id].id == id }

  predicate Includes(ledger: Ledger, owned: set<string>, claimed: set<string>, id: string)
    requires id in ledger
  {
    CompanyLedgerFlow(ledger[id], owned, claimed).Some?
  }

  function ToFlow(entry: Entry, owned: set<string>, claimed: set<string>): Flow
    requires CompanyLedgerFlow(entry, owned, claimed).Some?
  {
    Flow(entry.reason, CompanyLedgerFlow(entry, owned, claimed).value, entry.createdAt.value)
  }

  // ---------------------------------------------------------------- one pass

  function Known(recorded: Option<map<string, bool>>): map<string, bool> {
    if recorded.Some? then recorded.value else map[]
  }

  /** Ledger entries whose classification is new to this process. */
  function LedgerChanges(known: map<string, bool>, ledger: Ledger, owned: set<string>, claimed: set<string>):
      map<string, bool>
  {
    map id | id in ledger && (id in known ==> known[id] != Includes(ledger, owned, claimed, id))
      :: Includes(ledger, owned, claimed, id)
  }

  /** Claims of bills that the ledger rows have not decided. */
  function Late(known: map<string, bool>, changes: map<string, bool>, claimed: set<string>): set<string> {
    set id | id in claimed && id !in changes && (id in known ==> known[id])
  }

  function Changes(known: map<string, bool>, ledger: Ledger, owned: set<string>, claimed: set<string>):
      map<string, bool>
  {
    var changes := LedgerChanges(known, ledger, owned, claimed);
    changes + map id | id in Late(known, changes, claimed) :: false
  }

  function Additions(known: map<string, bool>, ledger: Ledger, owned: set<string>, claimed: set<string>):
      map<string, Flow>
  {
    var changes := LedgerChanges(known, ledger, owned, claimed);
    map id | id in changes && changes[id] :: ToFlow(ledger[id], owned, claimed)
  }

  function Removals(recorded: Option<map<string, bool>>, ledger: Ledger, owned: set<string>, claimed: set<string>):
      set<string>
  {
    var known := Known(recorded);
    var changes := Changes(known, ledger, owned, claimed);
    set id | id in changes && !changes[id] && (recorded.None? || (id in known && known[id]) || id in claimed)
  }

  /** One statement: deletes, and inserts what is not there yet. */
  function Synced(db: map<string, Flow>, additions: map<string, Flow>, removals: set<string>): map<string, Flow> {
    additions + (db - removals)
  }

  function Remembered(recorded: Option<map<string, bool>>, ledger: Ledger, owned: set<string>, claimed: set<string>):
      map<string, bool>
  {
    var known := Known(recorded);
    var all := known + Changes(known, ledger, owned, claimed);
    map id | id in all && (id in ledger || id in claimed) :: all[id]
  }

  // ---------------------------------------------------------------- runs

  /** `db` is durable; `recorded` is the process's memory of it. `window` is the
      ledger as last captured, `gone` what has left it, `seen` all it ever held. */
  datatype World = World(
    db: map<string, Flow>,
    recorded: Option<map<string, bool>>,
    window: Ledger,
    seen: Ledger,
    gone: set<string>,
    owned: set<string>,
    claimed: set<string>)

  const Start := World(map[], None, map[], map[], {}, {}, {})

  datatype Step =
    | Capture(ledger: Ledger, owned: set<string>)
    | Claim(claimed: set<string>)
    | Sync
    | Restart(claimed: set<string>)

  ghost predicate Enabled(w: World, step: Step) {
    match step
    case Capture(ledger, owned) =>
      // Entries never change, and none returns to the window.
      && Sound(ledger)
      && (forall id <- ledger :: id !in w.gone && (id in w.seen ==> w.seen[id] == ledger[id]))
    case _ => true
  }

  ghost function Apply(w: World, step: Step): World
    requires Enabled(w, step)
  {
    match step
    case Capture(ledger, owned) =>
      w.(window := ledger, seen := w.seen + ledger, gone := w.gone + (w.seen.Keys - ledger.Keys), owned := owned)
    case Claim(claimed) => w.(claimed := claimed)
    case Sync =>
      var additions := Additions(Known(w.recorded), w.window, w.owned, w.claimed);
      var removals := Removals(w.recorded, w.window, w.owned, w.claimed);
      w.(db := Synced(w.db, additions, removals),
         recorded := Some(Remembered(w.recorded, w.window, w.owned, w.claimed)))
    case Restart(claimed) => w.(recorded := None, claimed := claimed)
  }

  /** What the process remembers is what the database holds, and the database holds
      nothing in the window that the process does not remember. */
  predicate Inv(w: World) {
    && (forall id <- w.db :: id in w.seen && id != "")
    && (forall id <- w.seen :: id in w.window || id in w.gone)
    && (forall id <- w.window :: id in w.seen && id !in w.gone && w.seen[id] == w.window[id] && w.window[id].id == id)
    && (w.recorded.Some? ==>
          && (forall id <- w.recorded.value :: w.recorded.value[id] <==> id in w.db)
          && (forall id <- w.db :: id in w.window ==> id in w.recorded.value))
  }

  /** What a pass makes of one identity. */
  lemma SyncAt(w: World, id: string)
    requires Inv(w)
    ensures var v := Apply(w, Sync);
            && (id in v.db <==> if id in w.window then Includes(w.window, w.owned, w.claimed, id)
                                else id in w.db && id !in w.claimed)
            && (id in v.db ==> v.db[id] == if id in w.db then w.db[id] else ToFlow(w.window[id], w.owned, w.claimed))
            && (id in v.recorded.value <==> id in w.window || id in w.claimed)
            && (id in v.recorded.value ==> (v.recorded.value[id] <==> id in v.db))
  {
  }

  lemma SyncKeepsInv(w: World)
    requires Inv(w)
    ensures Inv(Apply(w, Sync))
  {
    var v := Apply(w, Sync);
    forall id ensures id in v.db ==> id in w.db || id in w.window {
      SyncAt(w, id);
    }
    forall id ensures id in v.recorded.value ==> (v.recorded.value[id] <==> id in v.db) {
      SyncAt(w, id);
    }
    forall id ensures id in w.window ==> id in v.recorded.value {
      SyncAt(w, id);
    }
  }

  lemma StepKeepsInv(w: World, step: Step)
    requires Inv(w) && Enabled(w, step)
    ensures Inv(Apply(w, step))
  {
    if step.Sync? {
      SyncKeepsInv(w);
    }
  }

  /** A pass leaves, of the ledger, exactly the entries a classification from scratch
      includes, and no claimed bill at all; history outside the window stays. */
  ghost predicate MatchesScratch(w: World, v: World) {
    && (forall id <- w.window :: id in v.db <==> Includes(w.window, w.owned, w.claimed, id))
    && (forall id <- v.db :: id !in w.claimed)
    && (forall id <- w.db :: id in v.db || id in w.window || id in w.claimed)
    && (forall id <- v.db :: if id in w.db then v.db[id] == w.db[id] else id in w.window)
  }

  lemma SyncMatchesScratch(w: World)
    requires Inv(w)
    ensures MatchesScratch(w, Apply(w, Sync))
  {
    var v := Apply(w, Sync);
    forall id: string
      ensures id in v.db <==> if id in w.window then Includes(w.window, w.owned, w.claimed, id)
                              else id in w.db && id !in w.claimed
      ensures id in v.db && id in w.db ==> v.db[id] == w.db[id]
    {
      SyncAt(w, id);
    }
  }

  ghost predicate Legal(steps: seq<Step>)
    decreases |steps|, 0
  {
    steps == [] || (Legal(Front(steps)) && Enabled(After(Front(steps)), Last(steps)))
  }

  ghost function After(steps: seq<Step>): World
    requires Legal(steps)
    decreases |steps|, 1
  {
    if steps == [] then Start else Apply(After(Front(steps)), Last(steps))
  }

  lemma {:induction false} RunKeepsInv(steps: seq<Step>)
    requires Legal(steps)
    ensures Inv(After(steps))
    decreases |steps|
  {
    if steps != [] {
      RunKeepsInv(Front(steps));
      StepKeepsInv(After(Front(steps)), Last(steps));
    }
  }

  /** Incremental passes agree with a classification from scratch, across restarts,
      late claims and entries that leave the window. */
  lemma EverySyncMatchesScratch(steps: seq<Step>)
    requires Legal(steps) && steps != [] && Last(steps).Sync?
    ensures Legal(Front(steps)) && MatchesScratch(After(Front(steps)), After(steps))
  {
    RunKeepsInv(Front(steps));
    SyncMatchesScratch(After(Front(steps)));
  }

  // ---------------------------------------------------------------- amounts

  /** Each row has its entry's amount, signed by the side that was ours. */
  predicate AmountsSound(w: World) {
    forall id <- w.db ::
      && id in w.seen && 0 < w.seen[id].amount
      && (w.db[id].amount == w.seen[id].amount || w.db[id].amount == -w.seen[id].amount)
      && w.db[id].reason == w.seen[id].reason && w.seen[id].createdAt == Some(w.db[id].createdAt)
  }

  predicate AmountsAgree(w: World) {
    forall id <- w.window ::
      id in w.db && Includes(w.window, w.owned, w.claimed, id) ==>
        w.db[id] == ToFlow(w.window[id], w.owned, w.claimed)
  }

  /** Of each row still included, the account that is ours is the one that was. */
  predicate SidesKept(w: World) {
    forall id <- w.window ::
      id in w.db && Includes(w.window, w.owned, w.claimed, id) ==>
        (w.db[id].amount < 0 <==> w.window[id].debit in w.owned)
  }

  predicate OursStill(w: World) {
    forall id <- w.db ::
      id in w.seen && if w.db[id].amount < 0 then w.seen[id].debit in w.owned else w.seen[id].credit in w.owned
  }

  lemma SyncAmountAt(w: World, id: string)
    requires Inv(w) && AmountsSound(w) && id in Apply(w, Sync).db
    ensures var row := Apply(w, Sync).db[id];
            && id in w.seen && 0 < w.seen[id].amount
            && (row.amount == w.seen[id].amount || row.amount == -w.seen[id].amount)
            && row.reason == w.seen[id].reason && w.seen[id].createdAt == Some(row.createdAt)
            && (id !in w.db ==> if row.amount < 0 then w.seen[id].debit in w.owned else w.seen[id].credit in w.owned)
  {
    SyncAt(w, id);
  }

  lemma SyncKeepsAmounts(w: World)
    requires Inv(w) && AmountsSound(w)
    ensures AmountsSound(Apply(w, Sync)) && (OursStill(w) ==> OursStill(Apply(w, Sync)))
  {
    var v := Apply(w, Sync);
    assert v.seen == w.seen && v.owned == w.owned;
    forall id | id in v.db
      ensures id in v.seen && 0 < v.seen[id].amount
      ensures v.db[id].amount == v.seen[id].amount || v.db[id].amount == -v.seen[id].amount
      ensures v.db[id].reason == v.seen[id].reason && v.seen[id].createdAt == Some(v.db[id].createdAt)
      ensures id !in w.db ==> if v.db[id].amount < 0 then v.seen[id].debit in v.owned else v.seen[id].credit in v.owned
      ensures id in w.db ==> v.db[id] == w.db[id]
    {
      SyncAmountAt(w, id);
      SyncAt(w, id);
    }
  }

  lemma SyncRow(w: World, id: string)
    requires Inv(w) && id in w.window && Includes(w.window, w.owned, w.claimed, id)
    ensures id in Apply(w, Sync).db
    ensures Apply(w, Sync).db[id] == if id in w.db then w.db[id] else ToFlow(w.window[id], w.owned, w.claimed)
  {
    SyncAt(w, id);
  }

  lemma RowAgrees(w: World, id: string)
    requires Inv(w) && AmountsSound(w)
    requires id in w.window && id in w.db && Includes(w.window, w.owned, w.claimed, id)
    ensures w.db[id] == ToFlow(w.window[id], w.owned, w.claimed) <==>
              (w.db[id].amount < 0 <==> w.window[id].debit in w.owned)
  {
    assert id in w.seen && w.seen[id] == w.window[id];
  }

  /** After a pass the amounts agree with a classification from scratch exactly when
      no row's two accounts have changed hands since it was written. */
  lemma SyncAmountsExactly(w: World)
    requires Inv(w) && AmountsSound(w)
    ensures AmountsAgree(Apply(w, Sync)) <==> SidesKept(w)
  {
    forall id | id in w.window && Includes(w.window, w.owned, w.claimed, id)
      ensures id in Apply(w, Sync).db
      ensures id in w.db ==> (Apply(w, Sync).db[id] == ToFlow(w.window[id], w.owned, w.claimed)
                              <==> (w.db[id].amount < 0 <==> w.window[id].debit in w.owned))
      ensures id !in w.db ==> Apply(w, Sync).db[id] == ToFlow(w.window[id], w.owned, w.claimed)
    {
      SyncRow(w, id);
      if id in w.db {
        RowAgrees(w, id);
      }
    }
    AgreeByRow(w, Apply(w, Sync));
  }

  lemma AgreeByRow(w: World, v: World)
    requires v.window == w.window && v.owned == w.owned && v.claimed == w.claimed
    requires forall id | id in w.window && Includes(w.window, w.owned, w.claimed, id) ::
               && id in v.db
               && (v.db[id] == ToFlow(w.window[id], w.owned, w.claimed)
                   <==> (id in w.db ==> (w.db[id].amount < 0 <==> w.window[id].debit in w.owned)))
    ensures AmountsAgree(v) <==> SidesKept(w)
  {
  }

  lemma StepKeepsAmounts(w: World, step: Step)
    requires Inv(w) && AmountsSound(w) && Enabled(w, step)
    ensures AmountsSound(Apply(w, step))
  {
    if step.Sync? {
      SyncKeepsAmounts(w);
    }
  }

  /** In every run each stored row has its entry's amount, one way or the other. */
  lemma {:induction false} RunKeepsAmounts(steps: seq<Step>)
    requires Legal(steps)
    ensures AmountsSound(After(steps))
    decreases |steps|
  {
    if steps != [] {
      RunKeepsInv(Front(steps));
      RunKeepsAmounts(Front(steps));
      StepKeepsAmounts(After(Front(steps)), Last(steps));
    }
  }

  /** So after every pass of every run, the stored amounts agree with a classification
      from scratch exactly when no row's two accounts have changed hands. */
  lemma EverySyncAmountsExactly(steps: seq<Step>)
    requires Legal(steps) && steps != [] && Last(steps).Sync?
    ensures AmountsAgree(After(steps)) <==> SidesKept(After(Front(steps)))
  {
    RunKeepsInv(Front(steps));
    RunKeepsAmounts(Front(steps));
    SyncAmountsExactly(After(Front(steps)));
  }

  ghost predicate Growing(steps: seq<Step>)
    requires Legal(steps)
    decreases |steps|
  {
    steps == [] ||
    (Growing(Front(steps)) &&
     (Last(steps).Capture? ==> After(Front(steps)).owned <= Last(steps).owned))
  }

  lemma StepKeepsOurs(w: World, step: Step)
    requires Inv(w) && AmountsSound(w) && OursStill(w) && Enabled(w, step)
    requires step.Capture? ==> w.owned <= step.owned
    ensures AmountsSound(Apply(w, step)) && OursStill(Apply(w, step))
  {
    if step.Sync? {
      SyncKeepsAmounts(w);
    }
  }

  lemma {:induction false} RunKeepsOurs(steps: seq<Step>)
    requires Legal(steps) && Growing(steps)
    ensures AmountsSound(After(steps)) && OursStill(After(steps))
    decreases |steps|
  {
    if steps != [] {
      RunKeepsOurs(Front(steps));
      RunKeepsInv(Front(steps));
      StepKeepsOurs(After(Front(steps)), Last(steps));
    }
  }

  /** While the owned accounts only grow, the amounts agree too. */
  lemma GrowingAmountsAgree(steps: seq<Step>)
    requires Legal(steps) && Growing(steps) && steps != [] && Last(steps).Sync?
    ensures AmountsAgree(After(steps))
  {
    var w := After(Front(steps));
    RunKeepsInv(Front(steps));
    RunKeepsOurs(Front(steps));
    assert SidesKept(w);
    SyncAmountsExactly(w);
  }

  /** Otherwise they need not: when an entry's two accounts change hands, the row keeps
      its old sign. */
  lemma StaleSign(entry: Entry)
    requires entry == Entry("e", "a", "b", 5, "x", Some(1), "", "")
    ensures
      var steps := [Capture(map["e" := entry], {"a"}), Sync, Capture(map["e" := entry], {"b"}), Sync];
      && Legal(steps) && "e" in After(steps).db
      && After(steps).db["e"].amount == -5 && CompanyLedgerFlow(entry, {"b"}, {}) == Some(5)
  {
    Signs(entry);
    var a, b := Capture(map["e" := entry], {"a"}), Capture(map["e" := entry], {"b"});
    var w1 := Apply(Start, a);
    SyncRow(w1, "e");
    var w2 := Apply(w1, Sync);
    StepKeepsInv(w1, Sync);
    var w3 := Apply(w2, b);
    StepKeepsInv(w2, b);
    SyncRow(w3, "e");
    Four(a, Sync, b, Sync);
  }

  lemma Signs(entry: Entry)
    requires entry == Entry("e", "a", "b", 5, "x", Some(1), "", "")
    ensures CompanyLedgerFlow(entry, {"a"}, {}) == Some(-5) && CompanyLedgerFlow(entry, {"b"}, {}) == Some(5)
  {
    assert Classified("x");
  }

  lemma Four(a: Step, b: Step, c: Step, d: Step)
    requires Enabled(Start, a) && Enabled(Apply(Start, a), b)
    requires Enabled(Apply(Apply(Start, a), b), c) && Enabled(Apply(Apply(Apply(Start, a), b), c), d)
    ensures Legal([a, b, c, d]) && After([a, b, c, d]) == Apply(Apply(Apply(Apply(Start, a), b), c), d)
  {
    assert [a, b, c, d][..3] == [a, b, c] && [a, b, c][..2] == [a, b] && [a, b][..1] == [a];
    var none: seq<Step> := [];
    assert [a][..0] == none && Legal(none) && After(none) == Start;
    assert Legal([a]) && After([a]) == Apply(Start, a);
    assert Legal([a, b]) && After([a, b]) == Apply(Apply(Start, a), b);
    assert Legal([a, b, c]);
  }

  // ---------------------------------------------------------------- the recorder

  predicate Distinct(rows: seq<Entry>) {
    forall i, j :: 0 <= i < j < |rows| && rows[i].id != "" ==> rows[i].id != rows[j].id
  }

  /** The identified rows of a ledger, by identity. */
  function Index(rows: seq<Entry>): Ledger {
    if rows == [] then map[]
    else
      var last, front := rows[|rows| - 1], Index(rows[..|rows| - 1]);
      if last.id == "" then front else front[last.id := last]
  }

  lemma {:induction false} Indexed(rows: seq<Entry>)
    ensures forall id :: id in Index(rows) <==> id != "" && exists i :: 0 <= i < |rows| && rows[i].id == id
    decreases |rows|
  {
    if rows != [] {
      var front := rows[..|rows| - 1];
      Indexed(front);
      forall id | id != "" && id in Index(rows) ensures exists i :: 0 <= i < |rows| && rows[i].id == id {
        if id in Index(front) {
          var i :| 0 <= i < |front| && front[i].id == id;
          assert rows[i].id == id;
        } else {
          assert rows[|rows| - 1].id == id;
        }
      }
    }
  }

  /** What one pass has worked out so far. */
  datatype Draft = Draft(additions: map<string, Flow>, removals: set<string>, changes: map<string, bool>)

  function Drafted(recorded: Option<map<string, bool>>, ledger: Ledger, owned: set<string>, claimed: set<string>):
      Draft
  {
    var known := Known(recorded);
    var changes := LedgerChanges(known, ledger, owned, claimed);
    Draft(Additions(known, ledger, owned, claimed),
          LedgerRemovals(recorded, changes, claimed),
          changes)
  }

  lemma NextChanges(known: map<string, bool>, before: Ledger, entry: Entry, owned: set<string>, claimed: set<string>)
    requires entry.id !in before
    ensures
      var flow, changes := CompanyLedgerFlow(entry, owned, claimed), LedgerChanges(known, before, owned, claimed);
      && entry.id !in changes
      && LedgerChanges(known, before[entry.id := entry], owned, claimed)
         == if entry.id in known && known[entry.id] == flow.Some? then changes else changes[entry.id := flow.Some?]
  {
  }

  lemma NextAdditions(known: map<string, bool>, before: Ledger, entry: Entry, owned: set<string>, claimed: set<string>)
    requires entry.id !in before
    ensures
      var flow, additions := CompanyLedgerFlow(entry, owned, claimed), Additions(known, before, owned, claimed);
      Additions(known, before[entry.id := entry], owned, claimed)
      == if flow.Some? && !(entry.id in known && known[entry.id])
         then additions[entry.id := ToFlow(entry, owned, claimed)] else additions
  {
    var after := before[entry.id := entry];
    var past, next := Additions(known, before, owned, claimed), Additions(known, after, owned, claimed);
    AdditionAt(known, after, owned, claimed, entry.id);
    AdditionAt(known, before, owned, claimed, entry.id);
    forall id: string | id != entry.id ensures (id in next <==> id in past) && (id in past ==> next[id] == past[id]) {
      AdditionKept(known, before, entry, owned, claimed, id);
    }
    OneMore(past, next, entry.id);
  }

  lemma OneMore<T>(past: map<string, T>, next: map<string, T>, id: string)
    requires id !in past
    requires forall other | other != id ::
               (other in next <==> other in past) && (other in past ==> next[other] == past[other])
    ensures next == if id in next then past[id := next[id]] else past
  {
  }

  lemma AdditionKept(known: map<string, bool>, before: Ledger, entry: Entry, owned: set<string>, claimed: set<string>,
        id: string)
    requires id != entry.id
    ensures var past := Additions(known, before, owned, claimed);
            var next := Additions(known, before[entry.id := entry], owned, claimed);
            (id in next <==> id in past) && (id in past ==> next[id] == past[id])
  {
    AdditionAt(known, before, owned, claimed, id);
    AdditionAt(known, before[entry.id := entry], owned, claimed, id);
  }

  lemma AdditionAt(known: map<string, bool>, ledger: Ledger, owned: set<string>, claimed: set<string>, id: string)
    ensures var additions := Additions(known, ledger, owned, claimed);
            && (id in additions <==>
                  id in ledger && Includes(ledger, owned, claimed, id) && !(id in known && known[id]))
            && (id in additions ==> additions[id] == ToFlow(ledger[id], owned, claimed))
  {
  }

  function LedgerRemovals(recorded: Option<map<string, bool>>, changes: map<string, bool>, claimed: set<string>):
      set<string>
  {
    set id | id in changes && !changes[id]
             && (recorded.None? || (id in recorded.value && recorded.value[id]) || id in claimed)
  }

  lemma NextRemovals(recorded: Option<map<string, bool>>, changes: map<string, bool>, id: string, included: bool,
        claimed: set<string>)
    requires id !in changes
    ensures LedgerRemovals(recorded, changes[id := included], claimed)
            == LedgerRemovals(recorded, changes, claimed)
               + if !included && (recorded.None? || (id in recorded.value && recorded.value[id]) || id in claimed)
                 then {id} else {}
  {
  }

  /** What one more ledger row adds to a pass. */
  lemma NextDraft(recorded: Option<map<string, bool>>, before: Ledger, entry: Entry, owned: set<string>,
        claimed: set<string>)
    requires entry.id !in before
    ensures
      var flow, known := CompanyLedgerFlow(entry, owned, claimed), Known(recorded);
      var draft := Drafted(recorded, before, owned, claimed);
      Drafted(recorded, before[entry.id := entry], owned, claimed)
      == if entry.id in known && known[entry.id] == flow.Some? then draft
         else
           Draft(if flow.Some? then draft.additions[entry.id := ToFlow(entry, owned, claimed)] else draft.additions,
                 draft.removals + (
                   if flow.None? && (recorded.None? || (entry.id in known && known[entry.id]) || entry.id in claimed)
                   then {entry.id} else {}),
                 draft.changes[entry.id := flow.Some?])
  {
    var known := Known(recorded);
    NextChanges(known, before, entry, owned, claimed);
    NextAdditions(known, before, entry, owned, claimed);
    NextRemovals(recorded, LedgerChanges(known, before, owned, claimed), entry.id,
                 CompanyLedgerFlow(entry, owned, claimed).Some?, claimed);
  }

  class Recorder {
    // The database, and the bills that durable missions claim.
    var db: map<string, Flow>
    var durable: set<string>
    // The process.
    var recorded: Option<map<string, bool>>
    var owners: set<string>
    var recovered: set<string>

    /** The claims a pass goes by: the process's own and, since a crash can leave
        newer ones in the missions, those found at the first pass. */
    function Claims(): set<string>
      reads this
    {
      owners + if recorded.None? then durable else recovered
    }

    /** One ledger row: a change of classification is written, anything else is not. */
    method Classify(draft: Draft, entry: Entry, owned: set<string>, claimed: set<string>, ghost before: Ledger)
        returns (next: Draft)
      requires entry.id != "" && entry.id !in before && draft == Drafted(recorded, before, owned, claimed)
      ensures next == Drafted(recorded, before[entry.id := entry], owned, claimed)
    {
      var flow := CompanyLedgerFlow(entry, owned, claimed);
      var known := Known(recorded);
      NextDraft(recorded, before, entry, owned, claimed);
      if entry.id in known && known[entry.id] == flow.Some? {
        return draft;
      }
      next := draft.(changes := draft.changes[entry.id := flow.Some?]);
      if flow.Some? {
        next := next.(additions := next.additions[entry.id := Flow(entry.reason, flow.value, entry.createdAt.value)]);
      } else if recorded.None? || (entry.id in known && known[entry.id]) || entry.id in claimed {
        next := next.(removals := next.removals + {entry.id});
      }
    }

    method ClassifyLedger(rows: seq<Entry>, owned: set<string>, claimed: set<string>) returns (draft: Draft)
      requires Distinct(rows)
      ensures draft == Drafted(recorded, Index(rows), owned, claimed)
    {
      draft := Draft(map[], {}, map[]);
      assert draft == Drafted(recorded, map[], owned, claimed);
      for i := 0 to |rows|
        invariant draft == Drafted(recorded, Index(rows[..i]), owned, claimed)
      {
        assert rows[..i + 1][..i] == rows[..i];
        if rows[i].id == "" {
          continue;
        }
        Indexed(rows[..i]);
        draft := Classify(draft, rows[i], owned, claimed, Index(rows[..i]));
      }
      assert rows[..|rows|] == rows;
    }

    /** A claim can name a bill that has left the ledger window; it is deleted once. */
    method ReleaseClaims(draft: Draft, claimed: set<string>) returns (changes: map<string, bool>, removals: set<string>)
      ensures var late := Late(Known(recorded), draft.changes, claimed);
              changes == draft.changes + (map id | id in late :: false) && removals == draft.removals + late
    {
      var late, rest := {}, claimed;
      var known := Known(recorded);
      while rest != {}
        invariant rest <= claimed
        invariant forall id :: id in late <==> id in Late(known, draft.changes, claimed) && id !in rest
        decreases rest
      {
        var id :| id in rest;
        rest := rest - {id};
        if id !in draft.changes && (id !in known || known[id]) {
          late := late + {id};
        }
      }
      assert late == Late(known, draft.changes, claimed);
      changes, removals := draft.changes + (map id | id in late :: false), draft.removals + late;
    }

    /** Forgets what left the window unclaimed. */
    method Prune(all: map<string, bool>, rows: seq<Entry>, claimed: set<string>) returns (kept: map<string, bool>)
      ensures kept == map id | id in all && (id in Index(rows) || id in claimed) :: all[id]
    {
      var inLedger := InLedger(rows);
      kept := all;
      var rest := all.Keys;
      while rest != {}
        invariant rest <= all.Keys
        invariant kept == map id | id in all && (id in rest || id in Index(rows) || id in claimed) :: all[id]
        decreases rest
      {
        var id :| id in rest;
        rest := rest - {id};
        if id !in inLedger && id !in claimed {
          kept := kept - {id};
        }
      }
    }

    method InLedger(rows: seq<Entry>) returns (ids: set<string>)
      ensures ids == Index(rows).Keys
    {
      ids := {};
      for i := 0 to |rows|
        invariant ids == Index(rows[..i]).Keys
      {
        assert rows[..i + 1][..i] == rows[..i];
        if rows[i].id != "" {
          ids := ids + {rows[i].id};
        }
      }
      assert rows[..|rows|] == rows;
    }

    /** One pass. A sync that fails leaves the database and the memory as they were. */
    method RecordCompanyFlows(rows: seq<Entry>, owned: set<string>, fails: bool) returns (ok: bool)
      requires Distinct(rows)
      modifies this
      ensures ok == !fails
      ensures owners == old(owners) && durable == old(durable) && Claims() == old(Claims())
      ensures fails ==> db == old(db) && recorded == old(recorded)
      ensures !fails ==>
                var w := World(old(db), old(recorded), Index(rows), map[], {}, owned, old(Claims()));
                db == Apply(w, Sync).db && recorded == Apply(w, Sync).recorded
    {
      var claimed := owners + if recorded.None? then durable else recovered;
      if recorded.None? {
        recovered := durable - owners;
      } else {
        recovered := recovered - owners;
      }
      var additions, removals, kept := WorkOut(rows, owned, claimed);
      if fails {
        return false;
      }
      db, recorded := additions + (db - removals), Some(kept);
      ok := true;
    }

    method WorkOut(rows: seq<Entry>, owned: set<string>, claimed: set<string>)
        returns (additions: map<string, Flow>, removals: set<string>, kept: map<string, bool>)
      requires Distinct(rows)
      ensures additions == Additions(Known(recorded), Index(rows), owned, claimed)
      ensures removals == Removals(recorded, Index(rows), owned, claimed)
      ensures kept == Remembered(recorded, Index(rows), owned, claimed)
    {
      var draft := ClassifyLedger(rows, owned, claimed);
      var changes;
      changes, removals := ReleaseClaims(draft, claimed);
      SyncedRemovals(recorded, Index(rows), owned, claimed, removals);
      kept := Prune(Known(recorded) + changes, rows, claimed);
      additions := draft.additions;
    }

    lemma SyncedRemovals(r: Option<map<string, bool>>, ledger: Ledger, owned: set<string>, claimed: set<string>,
          removals: set<string>)
      requires var draft := Drafted(r, ledger, owned, claimed);
               removals == draft.removals + Late(Known(r), draft.changes, claimed)
      ensures removals == Removals(r, ledger, owned, claimed)
    {
    }
  }
}
