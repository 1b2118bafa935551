/** Rankings that prefer less competition among candidates of nearly the best return.
    Anchoring the tolerance to the best return is what makes them orders. */
module Ranking {
  import opened Options
  import opened Pence
  import opened Ordering

  datatype Decision = Decision(
    accepted: bool,
    viable: bool,
    hullPrice: int,
    mortgage: Option<int>,
    slippage: int,
    cannons: int,
    stores: int,
    net: real,
    depthNet: real,
    preference: real,
    depthPreference: real,
    comparable: bool,
    depthComparable: bool)

  const Undecided := Decision(false, false, 0, None, 0, 0, 0, 0.0, 0.0, 0.0, 0.0, false, false)

  /** None stands for an infinitely bad best. */
  predicate EconomicallyComparable(value: real, best: Option<real>) {
    best.Some? && best.value - (if best.value < 0.0 then -best.value else best.value) * 0.05 <= value
  }

  function GrowthCapital(d: Decision): int {
    if d.mortgage.Some? && (d.mortgage.value <= 0 || d.mortgage.value > d.hullPrice) then MAX_INT64
    else CashTotal([d.hullPrice - if d.mortgage.Some? then d.mortgage.value else 0, d.slippage, d.cannons, d.stores])
  }

  function CapacityReturn(d: Decision, depth: bool): real {
    var capital := GrowthCapital(d);
    if capital <= 0 then 0.0 else (if depth then d.depthNet else d.net) / capital as real
  }

  function Larger(a: real, b: real): real { if a < b then b else a }

  function BestReturn(decisions: seq<Decision>, depth: bool): real {
    if decisions == [] then 0.0
    else
      var last, front := decisions[|decisions| - 1], BestReturn(decisions[..|decisions| - 1], depth);
      if (if depth then last.viable && !last.accepted else last.accepted) then
        Larger(front, CapacityReturn(last, depth))
      else front
  }

  function Marked(d: Decision, bestCash: real, bestDepth: real): Decision {
    d.(comparable := d.accepted && EconomicallyComparable(CapacityReturn(d, false), Some(bestCash)),
       depthComparable := !d.accepted && d.viable && EconomicallyComparable(CapacityReturn(d, true), Some(bestDepth)))
  }

  method MarkCapacityCompetition(decisions: array<Decision>)
    modifies decisions
    ensures var was := old(decisions[..]);
            forall i :: 0 <= i < decisions.Length ==>
              decisions[i] == Marked(was[i], BestReturn(was, false), BestReturn(was, true))
  {
    var bestCash, bestDepth := 0.0, 0.0;
    for i := 0 to decisions.Length
      invariant bestCash == BestReturn(decisions[..i], false) && bestDepth == BestReturn(decisions[..i], true)
      invariant decisions[..] == old(decisions[..])
    {
      assert decisions[..i + 1][..i] == decisions[..i];
      var d := decisions[i];
      if d.accepted {
        bestCash := Larger(bestCash, CapacityReturn(d, false));
      }
      if d.viable && !d.accepted {
        bestDepth := Larger(bestDepth, CapacityReturn(d, true));
      }
    }
    assert decisions[..decisions.Length] == old(decisions[..]);
    for i := 0 to decisions.Length
      invariant forall k :: i <= k < decisions.Length ==> decisions[k] == old(decisions[k])
      invariant forall k :: 0 <= k < i ==> decisions[k] == Marked(old(decisions[k]), bestCash, bestDepth)
    {
      decisions[i] := Marked(decisions[i], bestCash, bestDepth);
    }
  }

  predicate Better(candidate: Decision, other: Decision) {
    var capital, otherCapital := GrowthCapital(candidate), GrowthCapital(other);
    if capital <= 0 || capital == MAX_INT64 then false
    else if otherCapital <= 0 || otherCapital == MAX_INT64 then true
    else
      var rate, otherRate := candidate.net / capital as real, other.net / otherCapital as real;
      if candidate.comparable && other.comparable && candidate.preference != other.preference then
        candidate.preference < other.preference
      else if rate != otherRate then rate > otherRate
      else capital < otherCapital
  }

  function Financing(d: Decision): Decision {
    d.(net := d.depthNet, comparable := d.depthComparable, preference := d.depthPreference)
  }

  predicate BetterFinancing(candidate: Decision, other: Decision) { Better(Financing(candidate), Financing(other)) }

  // --------------------------------------------------------------- a real order

  /** Both marks are those that the two anchors give. */
  predicate IsMarked(d: Decision, bestCash: real, bestDepth: real) { d == Marked(d, bestCash, bestDepth) }

  function Least(best: real): real { best - (if best < 0.0 then -best else best) * 0.05 }

  lemma BetterAsymmetric(a: Decision, b: Decision)
    ensures Better(a, b) ==> !Better(b, a)
    ensures !Better(a, a)
  {
  }

  // What the comparison looks at, with the capital checks decided.
  datatype Standing = Standing(funded: bool, near: bool, preference: real, rate: real, capital: int)

  function StandingOf(d: Decision): Standing {
    var capital := GrowthCapital(d);
    if capital <= 0 || capital == MAX_INT64 then Standing(false, false, 0.0, 0.0, 0)
    else Standing(true, d.comparable, d.preference, d.net / capital as real, capital)
  }

  predicate Above(a: Standing, b: Standing) {
    a.funded &&
    (if !b.funded then true
     else if a.near && b.near && a.preference != b.preference then a.preference < b.preference
     else if a.rate != b.rate then a.rate > b.rate
     else a.capital < b.capital)
  }

  // Near the anchor is a matter of the rate alone.
  predicate Threshold(s: Standing, least: real) { s.funded ==> (s.near <==> least <= s.rate) }

  lemma BetterIsAbove(a: Decision, b: Decision)
    ensures Better(a, b) <==> Above(StandingOf(a), StandingOf(b))
  {
  }

  lemma CashThreshold(d: Decision, bestCash: real, bestDepth: real)
    requires IsMarked(d, bestCash, bestDepth) && d.accepted
    ensures Threshold(StandingOf(d), Least(bestCash))
  {
  }

  lemma DepthThreshold(d: Decision, bestCash: real, bestDepth: real)
    requires IsMarked(d, bestCash, bestDepth) && d.viable && !d.accepted
    ensures Threshold(StandingOf(Financing(d)), Least(bestDepth))
  {
    assert GrowthCapital(Financing(d)) == GrowthCapital(d);
  }

  lemma AboveWeakOrder(a: Standing, b: Standing, c: Standing, least: real)
    requires Threshold(a, least) && Threshold(b, least) && Threshold(c, least)
    ensures Above(a, b) && Above(b, c) ==> Above(a, c)
    ensures !Above(a, b) && !Above(b, c) ==> !Above(a, c)
  {
  }

  // Candidates that are never near are ordered by rate and capital alone.
  lemma PlainWeakOrder(a: Standing, b: Standing, c: Standing)
    requires !a.near && !b.near && !c.near
    ensures !Above(a, b) && !Above(b, c) ==> !Above(a, c)
  {
  }

  /** On marked and accepted candidates the comparison is a strict weak order. */
  lemma BetterStrictWeakOrder(a: Decision, b: Decision, c: Decision, bestCash: real, bestDepth: real)
    requires IsMarked(a, bestCash, bestDepth) && IsMarked(b, bestCash, bestDepth) && IsMarked(c, bestCash, bestDepth)
    requires a.accepted && b.accepted && c.accepted
    ensures Better(a, b) ==> !Better(b, a)
    ensures Better(a, b) && Better(b, c) ==> Better(a, c)
    ensures !Better(a, b) && !Better(b, a) && !Better(b, c) && !Better(c, b) ==> !Better(a, c) && !Better(c, a)
  {
    BetterAsymmetric(a, b);
    BetterIsAbove(a, b);
    BetterIsAbove(b, a);
    BetterIsAbove(b, c);
    BetterIsAbove(c, b);
    BetterIsAbove(a, c);
    BetterIsAbove(c, a);
    CashThreshold(a, bestCash, bestDepth);
    CashThreshold(b, bestCash, bestDepth);
    CashThreshold(c, bestCash, bestDepth);
    AboveWeakOrder(StandingOf(a), StandingOf(b), StandingOf(c), Least(bestCash));
    AboveWeakOrder(StandingOf(c), StandingOf(b), StandingOf(a), Least(bestCash));
  }

  /** How the scan compares two candidates of which none was accepted. */
  predicate BetterUnfunded(candidate: Decision, other: Decision) {
    if candidate.viable && other.viable then BetterFinancing(candidate, other)
    else if candidate.viable == other.viable then Better(candidate, other)
    else candidate.viable
  }

  /** That comparison is a strict weak order too, with viability first: the viable are
      compared by their financed return, the others by their cash return. */
  lemma UnfundedStrictWeakOrder(a: Decision, b: Decision, c: Decision, bestCash: real, bestDepth: real)
    requires IsMarked(a, bestCash, bestDepth) && IsMarked(b, bestCash, bestDepth) && IsMarked(c, bestCash, bestDepth)
    requires !a.accepted && !b.accepted && !c.accepted
    ensures BetterUnfunded(a, b) ==> !BetterUnfunded(b, a)
    ensures !BetterUnfunded(a, b) && !BetterUnfunded(b, c) ==> !BetterUnfunded(a, c)
  {
    BetterAsymmetric(a, b);
    BetterAsymmetric(Financing(a), Financing(b));
    if a.viable && b.viable && c.viable {
      FinancingWeakOrder(a, b, c, bestCash, bestDepth);
    } else if !a.viable && !b.viable && !c.viable {
      BetterIsAbove(a, b);
      BetterIsAbove(b, c);
      BetterIsAbove(a, c);
      PlainWeakOrder(StandingOf(a), StandingOf(b), StandingOf(c));
    }
  }

  lemma FinancingWeakOrder(a: Decision, b: Decision, c: Decision, bestCash: real, bestDepth: real)
    requires IsMarked(a, bestCash, bestDepth) && IsMarked(b, bestCash, bestDepth) && IsMarked(c, bestCash, bestDepth)
    requires !a.accepted && !b.accepted && !c.accepted && a.viable && b.viable && c.viable
    ensures !BetterFinancing(a, b) && !BetterFinancing(b, c) ==> !BetterFinancing(a, c)
  {
    BetterIsAbove(Financing(a), Financing(b));
    BetterIsAbove(Financing(b), Financing(c));
    BetterIsAbove(Financing(a), Financing(c));
    DepthThreshold(a, bestCash, bestDepth);
    DepthThreshold(b, bestCash, bestDepth);
    DepthThreshold(c, bestCash, bestDepth);
    AboveWeakOrder(StandingOf(Financing(a)), StandingOf(Financing(b)), StandingOf(Financing(c)), Least(bestDepth));
  }

  /** Across acceptance the cash comparison is no order: three candidates, one of them
      not accepted, can beat one another in a circle. So acceptance has to come first. */
  lemma UnacceptedCandidatesCycle()
    ensures
      var a := Undecided.(accepted := true, hullPrice := 100, net := 100.0, preference := 2.0);
      var b := Undecided.(accepted := true, hullPrice := 100, net := 96.0, preference := 1.0);
      var c := Undecided.(hullPrice := 100, net := 98.0);
      var x, y, z := Marked(a, 1.0, 0.0), Marked(b, 1.0, 0.0), Marked(c, 1.0, 0.0);
      && BestReturn([a, b, c], false) == 1.0
      && Better(x, z) && Better(z, y) && Better(y, x)
  {
    var a := Undecided.(accepted := true, hullPrice := 100, net := 100.0, preference := 2.0);
    var b := Undecided.(accepted := true, hullPrice := 100, net := 96.0, preference := 1.0);
    var c := Undecided.(hullPrice := 100, net := 98.0);
    Hundred();
    assert GrowthCapital(a) == GrowthCapital(b) == GrowthCapital(c) == 100;
    assert [a, b, c][..2] == [a, b] && [a, b][..1] == [a] && [a][..0] == [];
    assert BestReturn([a], false) == 1.0;
    assert BestReturn([a, b], false) == 1.0;
  }

  lemma Hundred()
    ensures CashTotal([100, 0, 0, 0]) == 100
  {
    assert [100, 0, 0, 0][..3] == [100, 0, 0] && [100, 0, 0][..2] == [100, 0] && [100, 0][..1] == [100]
           && [100][..0] == [];
    assert Sum([100]) == 100 && Sum([100, 0]) == 100 && Sum([100, 0, 0]) == 100 && Sum([100, 0, 0, 0]) == 100;
  }

  // --------------------------------------------------------------- the scan

  predicate AnyAccepted(decisions: seq<Decision>) { exists d <- decisions :: d.accepted }

  predicate AnyViable(decisions: seq<Decision>) { exists d <- decisions :: d.viable }

  /** Accepted and beaten by no accepted one; or, where none is accepted, viable and
      beaten by no viable one in financing; or, where none is viable either, beaten by none. */
  predicate Unbeaten(decisions: seq<Decision>, best: Decision) {
    if AnyAccepted(decisions) then best.accepted && forall d <- decisions | d.accepted :: !Better(d, best)
    else if AnyViable(decisions) then best.viable && forall d <- decisions | d.viable :: !BetterFinancing(d, best)
    else forall d <- decisions :: !Better(d, best)
  }

  // The scan's own two comparisons.
  predicate Leading(decisions: seq<Decision>, best: Decision) {
    if AnyAccepted(decisions) then best.accepted && forall d <- decisions | d.accepted :: !Better(d, best)
    else forall d <- decisions :: !BetterUnfunded(d, best)
  }

  lemma LeadingIsUnbeaten(decisions: seq<Decision>, best: Decision)
    requires best in decisions && Leading(decisions, best)
    ensures Unbeaten(decisions, best)
  {
    if !AnyAccepted(decisions) && AnyViable(decisions) {
      var d :| d in decisions && d.viable;
      assert !BetterUnfunded(d, best);
    }
  }

  /** What one more candidate does to the leader. */
  lemma LeaderNext(front: seq<Decision>, d: Decision, best: Decision, bestCash: real, bestDepth: real)
    requires forall c <- front + [d] :: IsMarked(c, bestCash, bestDepth)
    requires best in front && Leading(front, best)
    ensures
      var takes := if AnyAccepted(front) then d.accepted && Better(d, best) else d.accepted || BetterUnfunded(d, best);
      Leading(front + [d], if takes then d else best)
  {
    BetterAsymmetric(d, d);
    BetterAsymmetric(Financing(d), Financing(d));
    assert AnyAccepted(front + [d]) <==> AnyAccepted(front) || d.accepted by {
      assert forall c <- front :: c in front + [d];
      assert d in front + [d];
    }
    if AnyAccepted(front) {
      if d.accepted && Better(d, best) {
        forall c <- front | c.accepted ensures !Better(c, d) {
          BetterStrictWeakOrder(c, d, best, bestCash, bestDepth);
        }
      }
    } else if !d.accepted && BetterUnfunded(d, best) {
      forall c <- front ensures !BetterUnfunded(c, d) {
        UnfundedStrictWeakOrder(d, best, c, bestCash, bestDepth);
        UnfundedStrictWeakOrder(c, best, d, bestCash, bestDepth);
      }
    }
  }

  /** Keeps the best so far: once one is accepted, only a better accepted one. */
  method BestCandidate(decisions: seq<Decision>, ghost bestCash: real, ghost bestDepth: real)
    returns (found: bool, best: Option<nat>)
    requires forall d <- decisions :: IsMarked(d, bestCash, bestDepth)
    ensures best.Some? <==> decisions != []
    ensures found <==> AnyAccepted(decisions)
    ensures best.Some? ==> best.value < |decisions| && Unbeaten(decisions, decisions[best.value])
  {
    found, best := false, None;
    for i := 0 to |decisions|
      invariant best.Some? <==> 0 < i
      invariant found <==> AnyAccepted(decisions[..i])
      invariant best.Some? ==> best.value < i && Leading(decisions[..i], decisions[best.value])
    {
      ghost var front := decisions[..i];
      assert decisions[..i + 1] == front + [decisions[i]];
      var decision, bestDecision := decisions[i], if best.Some? then decisions[best.value] else Undecided;
      if best.Some? {
        assert front[best.value] == bestDecision;
        LeaderNext(front, decision, bestDecision, bestCash, bestDepth);
      } else {
        BetterAsymmetric(decision, decision);
        BetterAsymmetric(Financing(decision), Financing(decision));
      }
      var betterUnfunded := Better(decision, bestDecision);
      if decision.viable && bestDecision.viable {
        betterUnfunded := BetterFinancing(decision, bestDecision);
      }
      if (decision.accepted && (!found || Better(decision, bestDecision)))
         || (!found && (best.None? || (decision.viable && !bestDecision.viable)
                        || (decision.viable == bestDecision.viable && betterUnfunded))) {
        best := Some(i);
      }
      found := found || decision.accepted;
    }
    assert decisions[..|decisions|] == decisions;
    if best.Some? {
      LeadingIsUnbeaten(decisions, decisions[best.value]);
    }
  }

  /** Marks the candidates and picks one. Whatever they are, the pick is unbeaten. */
  method ChooseCandidate(decisions: array<Decision>) returns (found: bool, best: Option<nat>)
    modifies decisions
    ensures var was := old(decisions[..]);
            forall i :: 0 <= i < decisions.Length ==>
              decisions[i] == Marked(was[i], BestReturn(was, false), BestReturn(was, true))
    ensures best.Some? <==> decisions.Length > 0
    ensures found <==> AnyAccepted(old(decisions[..]))
    ensures best.Some? ==> best.value < decisions.Length && Unbeaten(decisions[..], decisions[best.value])
  {
    ghost var was := decisions[..];
    MarkCapacityCompetition(decisions);
    MarkedStay(was, decisions[..], BestReturn(was, false), BestReturn(was, true));
    found, best := BestCandidate(decisions[..], BestReturn(was, false), BestReturn(was, true));
  }

  lemma MarkedStay(was: seq<Decision>, now: seq<Decision>, bestCash: real, bestDepth: real)
    requires |now| == |was| && forall i :: 0 <= i < |was| ==> now[i] == Marked(was[i], bestCash, bestDepth)
    ensures forall d <- now :: IsMarked(d, bestCash, bestDepth)
    ensures AnyAccepted(now) <==> AnyAccepted(was)
  {
    forall i | 0 <= i < |was| ensures IsMarked(now[i], bestCash, bestDepth) && now[i].accepted == was[i].accepted {
      assert GrowthCapital(now[i]) == GrowthCapital(was[i]);
    }
    if AnyAccepted(was) {
      var i :| 0 <= i < |was| && was[i].accepted;
      assert now[i] in now;
    }
    if AnyAccepted(now) {
      var i :| 0 <= i < |now| && now[i].accepted;
      assert was[i] in was;
    }
  }

  // --------------------------------------------------------------- expansion pairs

  /** A yard's place in the order of identities, its score and its competition. */
  datatype Pair = Pair(yard: nat, score: int, preference: real)

  function EconomicBest(pairs: seq<Pair>): int {
    if pairs == [] then 0 else Max(EconomicBest(pairs[..|pairs| - 1]), pairs[|pairs| - 1].score)
  }

  predicate Near(pair: Pair, best: int) { EconomicallyComparable(pair.score as real, Some(best as real)) }

  /** Negative when a comes first, positive when b does. */
  function ComparePairs(a: Pair, b: Pair, best: int): int {
    var near, otherNear := Near(a, best), Near(b, best);
    if near != otherNear then (if near then -1 else 1)
    else if near && a.preference != b.preference then (if a.preference < b.preference then -1 else 1)
    else if a.score != b.score then (if a.score > b.score then -1 else 1)
    else if a.yard < b.yard then -1
    else if a.yard > b.yard then 1
    else 0
  }

  /** A strict total order on pairs of distinct yards. */
  lemma ComparePairsTotal(a: Pair, b: Pair, c: Pair, best: int)
    ensures a.yard != b.yard ==> ComparePairs(a, b, best) != 0
    ensures ComparePairs(a, b, best) == -ComparePairs(b, a, best)
    ensures ComparePairs(a, b, best) < 0 && ComparePairs(b, c, best) < 0 ==> ComparePairs(a, c, best) < 0
    ensures ComparePairs(a, b, best) <= 0 && ComparePairs(b, c, best) <= 0 ==> ComparePairs(a, c, best) <= 0
  {
  }

  function NotAfter(best: int): (Pair, Pair) -> bool { (a, b) => ComparePairs(a, b, best) <= 0 }

  lemma NotAfterTotal(best: int)
    ensures TotalPreorder(NotAfter(best))
  {
    var le := NotAfter(best);
    forall a, b ensures le(a, b) || le(b, a) {
      ComparePairsTotal(a, b, b, best);
    }
    forall a, b, c | le(a, b) && le(b, c) ensures le(a, c) {
      ComparePairsTotal(a, b, c, best);
    }
  }

  predicate DistinctYards(pairs: seq<Pair>) {
    forall i, j :: 0 <= i < j < |pairs| ==> pairs[i].yard != pairs[j].yard
  }

  function SortedPairs(pairs: seq<Pair>): seq<Pair> { StableSort(pairs, NotAfter(EconomicBest(pairs))) }

  lemma {:induction false} EconomicBestIs(pairs: seq<Pair>)
    ensures 0 <= EconomicBest(pairs) && forall pair <- pairs :: pair.score <= EconomicBest(pairs)
    decreases |pairs|
  {
    if pairs != [] {
      EconomicBestIs(pairs[..|pairs| - 1]);
    }
  }

  /** The sort loses no pair, and with distinct yards leaves no tie: any two stand in
      strict order, so whatever is nearly as good as the best comes before the rest. */
  lemma SortedPairsStrict(pairs: seq<Pair>)
    ensures multiset(SortedPairs(pairs)) == multiset(pairs)
    ensures var s, best := SortedPairs(pairs), EconomicBest(pairs);
            && |s| == |pairs|
            && forall i, j :: 0 <= i < j < |s| ==>
                 && ComparePairs(s[i], s[j], best) <= 0
                 && (DistinctYards(pairs) ==> s[i].yard != s[j].yard && ComparePairs(s[i], s[j], best) < 0)
                 && (Near(s[j], best) ==> Near(s[i], best))
  {
    var s, best := SortedPairs(pairs), EconomicBest(pairs);
    NotAfterTotal(best);
    SortSorted(pairs, NotAfter(best));
    SortPermutes(pairs, NotAfter(best));
    forall i, j | 0 <= i < j < |s|
      ensures ComparePairs(s[i], s[j], best) <= 0 && (Near(s[j], best) ==> Near(s[i], best))
      ensures DistinctYards(pairs) ==> s[i].yard != s[j].yard && ComparePairs(s[i], s[j], best) < 0
    {
      assert NotAfter(best)(s[i], s[j]);
      if DistinctYards(pairs) {
        PermutedDistinct(pairs, s, i, j);
        ComparePairsTotal(s[i], s[j], s[j], best);
      }
    }
  }

  lemma PermutedDistinct(pairs: seq<Pair>, s: seq<Pair>, i: nat, j: nat)
    requires multiset(s) == multiset(pairs) && DistinctYards(pairs) && i < j < |s|
    ensures s[i].yard != s[j].yard
  {
    assert s[i] in multiset(pairs) && s[j] in multiset(pairs);
    if s[i].yard == s[j].yard {
      var a :| 0 <= a < |pairs| && pairs[a] == s[i];
      var b :| 0 <= b < |pairs| && pairs[b] == s[j];
      assert a == b;
      Twice(s, i, j);
      Once(pairs, a);
    }
  }

  lemma Twice(s: seq<Pair>, i: nat, j: nat)
    requires i < j < |s| && s[i] == s[j]
    ensures 2 <= multiset(s)[s[i]]
  {
    assert s == s[..i] + [s[i]] + s[i + 1..j] + [s[j]] + s[j + 1..];
  }

  lemma Once(pairs: seq<Pair>, a: nat)
    requires DistinctYards(pairs) && a < |pairs|
    ensures multiset(pairs)[pairs[a]] == 1
  {
    assert pairs == pairs[..a] + [pairs[a]] + pairs[a + 1..];
    assert pairs[a] !in pairs[..a] && pairs[a] !in pairs[a + 1..];
  }

  method SortExpansionPairs(pairs: array<Pair>)
    modifies pairs
    ensures pairs[..] == SortedPairs(old(pairs[..]))
  {
    var best := 0;
    for i := 0 to pairs.Length
      invariant best == EconomicBest(pairs[..i])
    {
      assert pairs[..i + 1][..i] == pairs[..i];
      best := Max(best, pairs[i].score);
    }
    assert pairs[..pairs.Length] == pairs[..];
    var sorted := StableSort(pairs[..], NotAfter(best));
    forall i | 0 <= i < pairs.Length {
      pairs[i] := sorted[i];
    }
  }
}
