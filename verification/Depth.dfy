/** Order-book depth: what a book can execute at a limit, what is left of it
    after reservations, and the compact form in which it is remembered. */
module Depth {
  import opened Pence
  import opened Ordering

  const BID_LIMIT := 10

  datatype Level = Level(order: string, price: int, quantity: int)

  datatype Bid = Bid(price: int, quantity: int)

  predicate Executable(level: Level) { 0 < level.price <= MAXIMUM_PENCE && 0 < level.quantity }

  predicate Within(level: Level, limit: int, buy: bool) {
    if buy then level.price <= limit else limit <= level.price
  }

  // Asks are taken cheapest first, bids dearest first.
  function Rank(level: Level, buy: bool): int { if buy then level.price else -level.price }

  function BestFirst(buy: bool): (Level, Level) -> bool {
    (left, right) => Rank(left, buy) <= Rank(right, buy)
  }

  function SortBook(levels: seq<Level>, buy: bool): seq<Level> { StableSort(levels, BestFirst(buy)) }

  ghost predicate Ranked(levels: seq<Level>, buy: bool) {
    forall i, j :: 0 <= i < j < |levels| ==> Rank(levels[i], buy) <= Rank(levels[j], buy)
  }

  lemma SortBookRanked(levels: seq<Level>, buy: bool)
    ensures Ranked(SortBook(levels, buy), buy)
  {
    var le, s := BestFirst(buy), SortBook(levels, buy);
    SortSorted(levels, le);
    forall i, j | 0 <= i < j < |s| ensures Rank(s[i], buy) <= Rank(s[j], buy) {
      assert le(s[i], s[j]);
    }
  }

  lemma SortBookFixed(levels: seq<Level>, buy: bool)
    requires Ranked(levels, buy)
    ensures SortBook(levels, buy) == levels
  {
    var le := BestFirst(buy);
    assert Sorted(levels, le);
    SortedIsFixed(levels, le);
  }

  /** Tons that can be executed at the limit or better. */
  function Capacity(levels: seq<Level>, limit: int, buy: bool): nat {
    if levels == [] then 0
    else
      var first := levels[0];
      (if Executable(first) && Within(first, limit, buy) then first.quantity else 0) + Capacity(levels[1..], limit, buy)
  }

  /** The same, saturating instead of wrapping. */
  method DepthCapacity(levels: seq<Level>, limit: int, buy: bool) returns (quantity: int)
    requires forall level <- levels :: Int64(level.quantity)
    ensures quantity == Min(MAX_INT64, Capacity(levels, limit, buy))
  {
    quantity := 0;
    for i := 0 to |levels|
      invariant 0 <= quantity <= MAX_INT64
      invariant quantity + Capacity(levels[i..], limit, buy) == Capacity(levels, limit, buy)
    {
      var level := levels[i];
      assert levels[i..][1..] == levels[i + 1..];
      if level.price <= 0 || level.price > MAXIMUM_PENCE || level.quantity <= 0
         || (buy && level.price > limit) || (!buy && level.price < limit) {
        continue;
      }
      if level.quantity > MAX_INT64 - quantity {
        return MAX_INT64;
      }
      quantity := quantity + level.quantity;
    }
  }

  // ---------------------------------------------------------------- depletion

  /** Takes the reserved tons from the levels in the order given. */
  function Drain(levels: seq<Level>, reserved: int): (left: seq<Level>) {
    if levels == [] || reserved <= 0 then levels
    else [Less(levels[0], reserved)] + Drain(levels[1..], reserved - Taken(levels[0], reserved))
  }

  function Taken(level: Level, reserved: int): int {
    if Executable(level) then Min(reserved, level.quantity) else 0
  }

  function Less(level: Level, reserved: int): Level {
    level.(quantity := level.quantity - Taken(level, reserved))
  }

  /** What is left of a book once its best levels have been reserved. */
  function Depleted(levels: seq<Level>, reserved: int, buy: bool): seq<Level> {
    if reserved <= 0 then levels else Drain(SortBook(levels, buy), reserved)
  }

  lemma {:induction false} CapacityInsert(s: seq<Level>, x: Level, limit: int, buy: bool, le: (Level, Level) -> bool)
    ensures Capacity(Insert(s, x, le), limit, buy) == Capacity(s + [x], limit, buy)
    decreases |s|
  {
    if s != [] && !le(s[|s| - 1], x) {
      var front, last := s[..|s| - 1], s[|s| - 1];
      CapacityInsert(front, x, limit, buy, le);
      CapacityConcat(Insert(front, x, le), [last], limit, buy);
      CapacityConcat(front, [x], limit, buy);
      CapacityConcat(front, [last], limit, buy);
      assert s == front + [last];
      CapacityConcat(s, [x], limit, buy);
    }
  }

  lemma {:induction false} CapacityConcat(s: seq<Level>, t: seq<Level>, limit: int, buy: bool)
    ensures Capacity(s + t, limit, buy) == Capacity(s, limit, buy) + Capacity(t, limit, buy)
    decreases |s|
  {
    if s == [] {
      assert s + t == t;
    } else {
      assert (s + t)[1..] == s[1..] + t;
      CapacityConcat(s[1..], t, limit, buy);
    }
  }

  lemma {:induction false} CapacitySorted(s: seq<Level>, limit: int, buy: bool, le: (Level, Level) -> bool)
    ensures Capacity(StableSort(s, le), limit, buy) == Capacity(s, limit, buy)
    decreases |s|
  {
    if s != [] {
      var front, last := s[..|s| - 1], s[|s| - 1];
      assert s == front + [last];
      CapacitySorted(front, limit, buy, le);
      CapacityInsert(StableSort(front, le), last, limit, buy, le);
      CapacityConcat(StableSort(front, le), [last], limit, buy);
      CapacityConcat(front, [last], limit, buy);
    }
  }

  lemma {:induction false} NothingWithin(s: seq<Level>, limit: int, buy: bool)
    requires s != [] ==> !Within(s[0], limit, buy)
    requires Ranked(s, buy)
    ensures Capacity(s, limit, buy) == 0
    decreases |s|
  {
    if |s| > 1 {
      assert Rank(s[0], buy) <= Rank(s[1], buy);
      NothingWithin(s[1..], limit, buy);
    }
  }

  /** Depletion moves no level, and changes no price. */
  lemma {:induction false} DrainShape(s: seq<Level>, reserved: int)
    ensures |Drain(s, reserved)| == |s|
    ensures forall i :: 0 <= i < |s| ==> Drain(s, reserved)[i] == s[i].(quantity := Drain(s, reserved)[i].quantity)
    decreases |s|
  {
    if s != [] && reserved > 0 {
      DrainHead(s, reserved);
      DrainShape(s[1..], reserved - Taken(s[0], reserved));
    }
  }

  lemma DrainKeepsOrder(s: seq<Level>, reserved: int, buy: bool)
    requires Ranked(s, buy)
    ensures Ranked(Drain(s, reserved), buy)
  {
    var left := Drain(s, reserved);
    DrainShape(s, reserved);
    forall i, j | 0 <= i < j < |left| ensures Rank(left[i], buy) <= Rank(left[j], buy) {
      assert Rank(s[i], buy) <= Rank(s[j], buy);
    }
  }

  lemma {:induction false} DrainCapacity(s: seq<Level>, reserved: int, limit: int, buy: bool)
    requires 0 <= reserved && Ranked(s, buy)
    ensures Capacity(Drain(s, reserved), limit, buy) == Max(0, Capacity(s, limit, buy) - reserved)
    decreases |s|
  {
    if s != [] && reserved > 0 {
      var first, rest := s[0], s[1..];
      if !Within(first, limit, buy) {
        NothingWithin(s, limit, buy);
        DrainKeepsOrder(s, reserved, buy);
        NothingWithin(Drain(s, reserved), limit, buy);
      } else {
        var take := Taken(first, reserved);
        assert Ranked(rest, buy);
        DrainCapacity(rest, reserved - take, limit, buy);
        DrainHead(s, reserved);
      }
    }
  }

  lemma DrainHead(s: seq<Level>, reserved: int)
    requires s != [] && 0 < reserved
    ensures Drain(s, reserved) == [Less(s[0], reserved)] + Drain(s[1..], reserved - Taken(s[0], reserved))
  {
  }

  /** Reserving r tons leaves exactly r fewer executable tons at every limit. */
  lemma DepletionTheorem(levels: seq<Level>, reserved: int, limit: int, buy: bool)
    requires 0 <= reserved
    ensures Capacity(Depleted(levels, reserved, buy), limit, buy) == Max(0, Capacity(levels, limit, buy) - reserved)
  {
    SortBookRanked(levels, buy);
    CapacitySorted(levels, limit, buy, BestFirst(buy));
    DrainCapacity(SortBook(levels, buy), reserved, limit, buy);
  }

  lemma {:induction false} DrainTwice(s: seq<Level>, a: int, b: int)
    requires 0 <= a && 0 <= b
    ensures Drain(Drain(s, a), b) == Drain(s, a + b)
    decreases |s|
  {
    if s != [] && a > 0 && b > 0 {
      var first, rest := s[0], s[1..];
      var t, u := Taken(first, a), Taken(Less(first, a), b);
      LessTwice(first, a, b);
      DrainTwice(rest, a - t, b - u);
      DrainHead(s, a);
      DrainHead(s, a + b);
      DrainHead([Less(first, a)] + Drain(rest, a - t), b);
    }
  }

  lemma LessTwice(first: Level, a: int, b: int)
    requires 0 < a && 0 < b
    ensures Less(Less(first, a), b) == Less(first, a + b)
    ensures Taken(first, a) + Taken(Less(first, a), b) == Taken(first, a + b)
    ensures Taken(first, a) <= a && Taken(Less(first, a), b) <= b
  {
  }

  /** Two reservations leave the same book as one of their sum. */
  lemma DepletionComposes(levels: seq<Level>, a: int, b: int, buy: bool)
    requires 0 <= a && 0 <= b
    ensures Depleted(Depleted(levels, a, buy), b, buy) == Depleted(levels, a + b, buy)
  {
    if a > 0 && b > 0 {
      SortBookRanked(levels, buy);
      DepletedDrain(SortBook(levels, buy), a, b, buy);
    }
  }

  lemma DepletedDrain(s: seq<Level>, a: int, b: int, buy: bool)
    requires 0 < a && 0 < b && Ranked(s, buy)
    ensures Depleted(Drain(s, a), b, buy) == Drain(s, a + b)
  {
    DrainKeepsOrder(s, a, buy);
    SortBookFixed(Drain(s, a), buy);
    DrainTwice(s, a, b);
  }

  predicate InOrder(levels: seq<Level>, buy: bool) {
    forall i :: 0 < i < |levels| ==> Rank(levels[i - 1], buy) <= Rank(levels[i], buy)
  }

  lemma {:induction false} InOrderRanked(s: seq<Level>, buy: bool)
    requires InOrder(s, buy)
    ensures Ranked(s, buy)
    decreases |s|
  {
    if s != [] {
      var front := s[..|s| - 1];
      InOrderRanked(front, buy);
      forall i | 0 <= i < |s| - 1 ensures Rank(s[i], buy) <= Rank(s[|s| - 1], buy) {
        assert i < |s| - 2 ==> Rank(front[i], buy) <= Rank(front[|s| - 2], buy);
      }
    }
  }

  method SortStable(levels: array<Level>, buy: bool)
    modifies levels
    ensures levels[..] == SortBook(old(levels[..]), buy)
  {
    var sorted := SortBook(levels[..], buy);
    forall i | 0 <= i < levels.Length {
      levels[i] := sorted[i];
    }
  }

  lemma DrainStep(was: seq<Level>, done: seq<Level>, i: nat, left: int)
    requires |done| == i < |was| && 0 < left
    ensures done + Drain(was[i..], left)
            == done + [Less(was[i], left)] + Drain(was[i + 1..], left - Taken(was[i], left))
  {
    assert was[i..][1..] == was[i + 1..];
    DrainHead(was[i..], left);
  }

  ghost predicate Taking(levels: seq<Level>, was: seq<Level>, i: nat, left: int, reserved: int) {
    && |levels| == |was| && i <= |was| && 0 <= left
    && levels[i..] == was[i..]
    && levels[..i] + Drain(was[i..], left) == Drain(was, reserved)
  }

  lemma TakingDone(levels: seq<Level>, was: seq<Level>, i: nat, left: int, reserved: int)
    requires Taking(levels, was, i, left, reserved) && (left == 0 || i == |was|)
    ensures levels == Drain(was, reserved)
  {
    assert levels == levels[..i] + levels[i..];
  }

  lemma TakingNext(levels: seq<Level>, next: seq<Level>, was: seq<Level>, i: nat, left: int, reserved: int)
    requires Taking(levels, was, i, left, reserved) && i < |was| && 0 < left && |next| == |was|
    requires next[..i + 1] == levels[..i] + [Less(levels[i], left)] && next[i + 1..] == levels[i + 1..]
    ensures Taking(next, was, i + 1, left - Taken(levels[i], left), reserved)
  {
    assert levels[i] == levels[i..][0] == was[i];
    assert levels[i + 1..] == levels[i..][1..] == was[i + 1..];
    DrainStep(was, levels[..i], i, left);
  }

  /** Takes the reserved tons in place, from the front. */
  method TakeInPlace(levels: array<Level>, reserved: int)
    requires 0 < reserved
    modifies levels
    ensures levels[..] == Drain(old(levels[..]), reserved)
  {
    var left := reserved;
    ghost var was := levels[..];
    assert was[0..] == was;
    for i := 0 to levels.Length
      invariant 0 < left && Taking(levels[..], was, i, left, reserved)
    {
      ghost var before := levels[..];
      var rest := TakeOne(levels, i, left);
      TakingNext(before, levels[..], was, i, left, reserved);
      left := rest;
      if left == 0 {
        TakingDone(levels[..], was, i + 1, left, reserved);
        return;
      }
    }
    TakingDone(levels[..], was, levels.Length, left, reserved);
  }

  method TakeOne(levels: array<Level>, i: nat, left: int) returns (rest: int)
    requires i < levels.Length && 0 < left
    modifies levels
    ensures rest == left - Taken(old(levels[i]), left)
    ensures levels[..][..i + 1] == old(levels[..])[..i] + [Less(old(levels[..])[i], left)]
    ensures levels[..][i + 1..] == old(levels[..])[i + 1..]
  {
    var level := levels[i];
    if level.price <= 0 || level.price > MAXIMUM_PENCE || level.quantity <= 0 {
      return left;
    }
    var take := Min(left, level.quantity);
    levels[i] := level.(quantity := level.quantity - take);
    rest := left - take;
  }

  /** The copying form: the caller's book is left as it was. */
  method DepleteDepth(levels: array<Level>, reserved: int, buy: bool) returns (remaining: array<Level>)
    ensures remaining[..] == Depleted(levels[..], reserved, buy)
    ensures reserved <= 0 ==> remaining == levels
    ensures reserved > 0 ==> fresh(remaining)
  {
    if reserved <= 0 {
      return levels;
    }
    remaining := new Level[levels.Length](i requires 0 <= i < levels.Length reads levels => levels[i]);
    assert remaining[..] == levels[..];
    if InOrder(remaining[..], buy) {
      InOrderRanked(remaining[..], buy);
      SortBookFixed(remaining[..], buy);
    } else {
      SortStable(remaining, buy);
    }
    TakeInPlace(remaining, reserved);
  }

  /** The in-place form for bids; it agrees with the copying one. */
  method ReserveBidLevels(levels: array<Level>, reserved: int)
    modifies levels
    ensures levels[..] == Depleted(old(levels[..]), reserved, false)
  {
    if reserved <= 0 {
      return;
    }
    SortStable(levels, false);
    TakeInPlace(levels, reserved);
  }

  // A commodity's order book, as a value and as the arrays that hold it.
  datatype BookView = Unseen(commodity: string) | Seen(commodity: string, bids: seq<Level>, asks: seq<Level>)

  datatype CommodityBook =
    | Absent(commodity: string)
    | Depth(commodity: string, bids: array<Level>, asks: array<Level>)
  {
    ghost function View(): BookView
      reads if Depth? then {bids, asks} else {}
    {
      if Absent? then Unseen(commodity) else Seen(commodity, bids[..], asks[..])
    }
  }

  // The provisions book also carries the voyage's stores.
  function ReservedAsks(name: string, commodity: string, asks: int, stores: int): int {
    var own := if name == commodity then asks else 0;
    if name == "provisions" then CashTotal([own, stores]) else own
  }

  /** What a reservation makes of one commodity's book. */
  function Reserved(view: BookView, commodity: string, asks: int, bids: int, stores: int): BookView {
    if view.Unseen? then view
    else
      Seen(view.commodity,
           Depleted(view.bids, if view.commodity == commodity then bids else 0, false),
           Depleted(view.asks, ReservedAsks(view.commodity, commodity, asks, stores), true))
  }

  /** A private reservation: every array the caller observed keeps its contents. */
  method ReserveGrowthBook(books: seq<CommodityBook>, commodity: string, asks: int, bids: int, stores: int)
      returns (reserved: seq<CommodityBook>)
    requires Int64(asks) && Int64(bids) && Int64(stores)
    ensures |reserved| == |books|
    ensures forall i :: 0 <= i < |books| ==>
              reserved[i].View() == Reserved(books[i].View(), commodity, asks, bids, stores)
  {
    if asks == 0 && bids == 0 && stores == 0 {
      NoTerms();
      return books;
    }
    reserved := [];
    for i := 0 to |books|
      invariant |reserved| == i
      invariant forall k :: 0 <= k < i ==>
                  reserved[k].View() == Reserved(books[k].View(), commodity, asks, bids, stores)
    {
      var entry := ReserveEntry(books[i], commodity, asks, bids, stores);
      reserved := reserved + [entry];
    }
  }

  /** Every limit sees the seen book less what was reserved, stores included. */
  lemma ReservedExecutable(view: BookView, commodity: string, asks: int, bids: int, stores: int, limit: int)
    requires view.Seen? && 0 <= asks && 0 <= bids && 0 <= stores
    ensures var left := Reserved(view, commodity, asks, bids, stores);
            var taken := ReservedAsks(view.commodity, commodity, asks, stores);
            && Capacity(left.asks, limit, true) == Max(0, Capacity(view.asks, limit, true) - taken)
            && Capacity(left.bids, limit, false)
               == Max(0, Capacity(view.bids, limit, false) - if view.commodity == commodity then bids else 0)
  {
    var own := if view.commodity == commodity then asks else 0;
    SumOfNonNegative([own, stores]);
    DepletionTheorem(view.asks, ReservedAsks(view.commodity, commodity, asks, stores), limit, true);
    DepletionTheorem(view.bids, if view.commodity == commodity then bids else 0, limit, false);
  }

  lemma NoTerms()
    ensures CashTotal([0, 0]) == 0
  {
    assert [0, 0][..1] == [0] && [0][..0] == [];
  }

  method ReserveEntry(entry: CommodityBook, commodity: string, asks: int, bids: int, stores: int)
      returns (left: CommodityBook)
    requires Int64(asks) && Int64(bids) && Int64(stores)
    ensures left.View() == Reserved(entry.View(), commodity, asks, bids, stores)
  {
    if entry.Absent? {
      return entry;
    }
    var reservedAsks, reservedBids := 0, 0;
    if entry.commodity == commodity {
      reservedAsks, reservedBids := asks, bids;
    }
    if entry.commodity == "provisions" {
      reservedAsks := GrowthCashTotal([reservedAsks, stores]);
    }
    if reservedAsks == 0 && reservedBids == 0 {
      return entry;
    }
    var leftAsks := DepleteDepth(entry.asks, reservedAsks, true);
    var leftBids := DepleteDepth(entry.bids, reservedBids, false);
    return Depth(entry.commodity, leftBids, leftAsks);
  }

  // -------------------------------------------------------------- remembered bids

  function DearBid(left: Bid, right: Bid): bool { right.price <= left.price }

  /** The valid levels that are not our own orders, in book order. */
  function Foreign(levels: seq<Level>, owned: set<string>): seq<Bid> {
    if levels == [] then []
    else
      var last := levels[|levels| - 1];
      Foreign(levels[..|levels| - 1], owned) +
      if last.order !in owned && Executable(last) then [Bid(last.price, last.quantity)] else []
  }

  /** The first ten bids, dearest first and in book order among equals. */
  function Best(bids: seq<Bid>): seq<Bid> { Bounded(StableSort(bids, DearBid)) }

  lemma DearBidTotal()
    ensures TotalPreorder(DearBid)
  {
  }

  lemma SortedBids(bids: seq<Bid>)
    ensures forall i, j :: 0 <= i < j < |bids| ==>
              StableSort(bids, DearBid)[j].price <= StableSort(bids, DearBid)[i].price
  {
    DearBidTotal();
    SortSorted(bids, DearBid);
    var s := StableSort(bids, DearBid);
    assert forall i, j :: 0 <= i < j < |s| ==> DearBid(s[i], s[j]);
  }

  lemma InsertBid(s: seq<Bid>, bid: Bid, index: nat)
    requires index <= |s|
    requires forall i :: 0 <= i < index ==> s[i].price >= bid.price
    requires forall i :: index <= i < |s| ==> s[i].price < bid.price
    ensures Insert(s, bid, DearBid) == s[..index] + [bid] + s[index..]
  {
    DearBidTotal();
    InsertAt(s, bid, DearBid, index);
  }

  function Bounded(bids: seq<Bid>): seq<Bid> { if |bids| <= BID_LIMIT then bids else bids[..BID_LIMIT] }

  /** Where a bid falls in the ten best decides where it falls in the whole order. */
  lemma InsertIntoBest(bids: seq<Bid>, bid: Bid, index: nat)
    requires index <= |Best(bids)|
    requires forall i :: 0 <= i < index ==> Best(bids)[i].price >= bid.price
    requires index < |Best(bids)| ==> Best(bids)[index].price < bid.price
    ensures Best(bids + [bid]) == Bounded(Best(bids)[..index] + [bid] + Best(bids)[index..])
  {
    var s := StableSort(bids, DearBid);
    SortedBids(bids);
    assert (bids + [bid])[..|bids|] == bids;
    var p := Rest(s, bid, index);
    InsertBid(s, bid, p);
    BoundedInsert(s, bid, p, index);
  }

  lemma Rest(s: seq<Bid>, bid: Bid, index: nat) returns (p: nat)
    requires forall i, j :: 0 <= i < j < |s| ==> s[j].price <= s[i].price
    requires index <= |Bounded(s)|
    requires forall i :: 0 <= i < index ==> s[i].price >= bid.price
    requires index < |Bounded(s)| ==> s[index].price < bid.price
    ensures index <= p <= |s| && (index < |Bounded(s)| ==> p == index)
    ensures forall i :: 0 <= i < p ==> s[i].price >= bid.price
    ensures forall i :: p <= i < |s| ==> s[i].price < bid.price
  {
    p := index;
    while p < |s| && s[p].price >= bid.price
      invariant index <= p <= |s|
      invariant index < |Bounded(s)| ==> p == index
      invariant forall i :: 0 <= i < p ==> s[i].price >= bid.price
    {
      p := p + 1;
    }
  }

  lemma BoundedInsert(s: seq<Bid>, bid: Bid, p: nat, index: nat)
    requires index <= |Bounded(s)| && index <= p <= |s| && (index < |Bounded(s)| ==> p == index)
    ensures Bounded(s[..p] + [bid] + s[p..]) == Bounded(Bounded(s)[..index] + [bid] + Bounded(s)[index..])
  {
    if |s| > BID_LIMIT {
      var t := s[..BID_LIMIT];
      if index < BID_LIMIT {
        assert (s[..p] + [bid] + s[p..])[..BID_LIMIT] == (t[..index] + [bid] + t[index..])[..BID_LIMIT];
      } else {
        assert (s[..p] + [bid] + s[p..])[..BID_LIMIT] == t;
        assert (t[..index] + [bid] + t[index..])[..BID_LIMIT] == t;
      }
    }
  }

  /** Bounded insertion into a buffer that never holds more than ten bids. */
  method RetainedBookBids(levels: seq<Level>, owned: set<string>) returns (bids: array<Bid>, count: nat)
    ensures count <= bids.Length
    ensures bids[..count] == Best(Foreign(levels, owned))
  {
    bids := new Bid[BID_LIMIT](_ => Bid(0, 0));
    count := 0;
    for n := 0 to |levels|
      invariant count <= BID_LIMIT == bids.Length
      invariant bids[..count] == Best(Foreign(levels[..n], owned))
    {
      var level := levels[n];
      ForeignNext(levels, n, owned);
      if level.order in owned || level.price <= 0 || level.price > MAXIMUM_PENCE || level.quantity <= 0 {
        continue;
      }
      count := InsertBounded(bids, count, Bid(level.price, level.quantity), Foreign(levels[..n], owned));
    }
    assert levels[..|levels|] == levels;
  }

  lemma ForeignNext(levels: seq<Level>, n: nat, owned: set<string>)
    requires n < |levels|
    ensures Foreign(levels[..n + 1], owned) ==
            if levels[n].order !in owned && Executable(levels[n])
            then Foreign(levels[..n], owned) + [Bid(levels[n].price, levels[n].quantity)]
            else Foreign(levels[..n], owned)
  {
    assert levels[..n + 1][..n] == levels[..n];
  }

  method InsertBounded(bids: array<Bid>, count: nat, bid: Bid, ghost kept: seq<Bid>) returns (grown: nat)
    requires bids.Length == BID_LIMIT && count <= BID_LIMIT
    requires bids[..count] == Best(kept)
    modifies bids
    ensures count <= grown <= BID_LIMIT
    ensures bids[..grown] == Best(kept + [bid])
  {
    var index := 0;
    while index < count && bids[index].price >= bid.price
      invariant index <= count
      invariant forall i :: 0 <= i < index ==> bids[i].price >= bid.price
    {
      index := index + 1;
    }
    ghost var was := bids[..count];
    assert forall i :: 0 <= i < count ==> bids[i] == was[i];
    InsertIntoBest(kept, bid, index);
    grown := count;
    if index == BID_LIMIT {
      assert (was[..index] + [bid] + was[index..])[..BID_LIMIT] == was;
      return;
    }
    grown := ShiftIn(bids, count, index, bid);
  }

  method ShiftIn(bids: array<Bid>, count: nat, index: nat, bid: Bid) returns (grown: nat)
    requires index <= count <= BID_LIMIT == bids.Length && index < BID_LIMIT
    modifies bids
    ensures count <= grown <= BID_LIMIT
    ensures var was := old(bids[..count]);
            bids[..grown] == Bounded(was[..index] + [bid] + was[index..])
  {
    ghost var was := bids[..count];
    grown := if count < BID_LIMIT then count + 1 else count;
    forall i | index < i < grown {
      bids[i] := bids[i - 1];
    }
    bids[index] := bid;
    ghost var whole := was[..index] + [bid] + was[index..];
    assert forall i :: 0 <= i < grown ==> bids[i] == whole[i];
    assert bids[..grown] == whole[..grown];
    assert |whole| <= BID_LIMIT ==> whole[..grown] == whole;
  }
}
