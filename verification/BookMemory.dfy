/** What is remembered of the quay books: the baseline bids of each port and
    commodity and the drift between successive readings, both kept clear of books
    that a temporary shock distorted. */
module BookMemory {
  import opened Options
  import opened Pence
  import opened Observation
  import Depth

  const MAX_AGE_DAYS := 12.0
  const MIN_DRIFT_DAYS := 0.5
  const SAMPLE_LIMIT := 200

  /** History: when a book was truly read, and the shocks known to that pass, with the
      events on record from which they were decoded. */
  datatype Reading = Reading(at: int, known: seq<Shock>, events: seq<Event>)

  /** The bids by commodity. They date from the port's capture unless overridden. The
      readings record history only. */
  datatype Book = Book(
    observedAt: Option<int>,
    bids: map<string, seq<Depth.Bid>>,
    overrides: map<string, int>,
    readings: map<string, Reading>)

  const NoBook := Book(None, map[], map[], map[])

  function DatedAt(book: Book, commodity: string): Option<int> {
    if commodity in book.overrides then Some(book.overrides[commodity]) else book.observedAt
  }

  datatype Sample = Sample(
    port: string, commodity: string, ageDays: real, changeBps: int, from: int, to: int,
    before: Reading, after: Reading)

  datatype Fill = Fill(port: string, commodity: string, ask: bool, quantity: int, at: int)

  datatype Listing = Listing(commodity: string, levels: Option<seq<Depth.Level>>)

  /** One port's capture in one pass: its interval and everything the pass knows. */
  datatype Capture = Capture(
    port: string,
    from: int,
    to: int,
    readAt: int,
    events: seq<Event>,
    shocks: seq<Shock>,
    unavailable: bool,
    owned: set<string>,
    fills: seq<Fill>,
    scale: int)

  function AgeDays(now: int, observed: Option<int>, scale: int): Option<real> {
    if observed.None? || observed.value > now || scale <= 0 then None
    else Some((now - observed.value) as real / SECOND as real * scale as real / 86_400.0)
  }

  predicate FilledByUs(fills: seq<Fill>, port: string, commodity: string, from: int, to: int) {
    exists fill <- fills ::
      && fill.port == port && fill.commodity == commodity && fill.ask && 0 < fill.quantity && from <= fill.at <= to
  }

  /** Go's division, which truncates toward zero. */
  function Truncated(a: int, b: int): int
    requires 0 < b
  {
    if 0 <= a then a / b else -(-a / b)
  }

  /** The change in the best bid, as the source rounds it. */
  function ChangeBps(before: int, after: int): int
    requires 0 < before
  {
    var change := (after - before) * 10_000;
    Truncated(if change < 0 then change - (before - 1) else change, before)
  }

  /** A fall is never understated: the change is rounded down. */
  lemma ChangeIsFloor(before: int, after: int)
    requires 0 < before
    ensures ChangeBps(before, after) * before <= (after - before) * 10_000 < (ChangeBps(before, after) + 1) * before
  {
    var change := (after - before) * 10_000;
    if change < 0 {
      var q := (-change + before - 1) / before;
      assert q * before <= -change + before - 1 < q * before + before;
    }
  }

  /** A new reading replaces the baseline unless a shock may have touched it; then an
      older, untouched baseline stays. */
  predicate Replaces(c: Capture, commodity: string) {
    Overlapping(c.shocks, c.port, commodity, Some(c.from), c.to).None?
  }

  // All but the last test of what follows, which is whether a shock touched the older book.
  predicate Keepable(c: Capture, previous: Book, commodity: string) {
    var shock, at := Overlapping(c.shocks, c.port, commodity, Some(c.from), c.to), DatedAt(previous, commodity);
    && shock.Some? && at.Some?
    && commodity in previous.bids && previous.bids[commodity] != []
    && at.value < shock.value.startsAt
  }

  predicate Stays(c: Capture, previous: Book, commodity: string) {
    && Keepable(c, previous, commodity)
    && var at := DatedAt(previous, commodity);
       Overlapping(c.shocks, c.port, commodity, at, at.value).None?
  }

  // Two books that may be compared, but for a shock between them.
  predicate Comparable(c: Capture, previous: Book, commodity: string, bids: seq<Depth.Bid>) {
    var at := DatedAt(previous, commodity);
    var age := AgeDays(c.to, at, c.scale);
    && age.Some? && MIN_DRIFT_DAYS <= age.value
    && commodity in previous.bids && previous.bids[commodity] != [] && bids != []
    && 0 < previous.bids[commodity][0].price <= MAXIMUM_PENCE
    && !c.unavailable
    && !FilledByUs(c.fills, c.port, commodity, at.value, c.to)
  }

  predicate Drifts(c: Capture, previous: Book, commodity: string, bids: seq<Depth.Bid>) {
    && Comparable(c, previous, commodity, bids)
    && Overlapping(c.shocks, c.port, commodity, DatedAt(previous, commodity), c.to).None?
  }

  function History(book: Book, commodity: string): Reading {
    if commodity in book.readings then book.readings[commodity] else Reading(0, [], [])
  }

  function Drifted(c: Capture, previous: Book, commodity: string, bids: seq<Depth.Bid>): Sample
    requires Drifts(c, previous, commodity, bids)
  {
    var at := DatedAt(previous, commodity);
    Sample(c.port, commodity, AgeDays(c.to, at, c.scale).value,
           ChangeBps(previous.bids[commodity][0].price, bids[0].price), at.value, c.to,
           History(previous, commodity), Reading(c.readAt, c.shocks, c.events))
  }

  datatype Gathered = Gathered(book: Book, samples: seq<Sample>)

  function Kept(listing: Listing, owned: set<string>): seq<Depth.Bid>
    requires listing.levels.Some?
  {
    Depth.Best(Depth.Foreign(listing.levels.value, owned))
  }

  /** The port's next book and the drift samples its listings give, in order. */
  function Gather(listings: seq<Listing>, c: Capture, previous: Book): Gathered {
    if listings == [] then Gathered(Book(Some(c.to), map[], map[], map[]), [])
    else
      var done, last := Gather(listings[..|listings| - 1], c, previous), listings[|listings| - 1];
      var id, book := last.commodity, done.book;
      if last.levels.None? then done
      else if Replaces(c, id) then
        var bids := Kept(last, c.owned);
        Gathered(
          book.(bids := book.bids[id := bids], readings := book.readings[id := Reading(c.readAt, c.shocks, c.events)]),
          if Drifts(c, previous, id, bids) then done.samples + [Drifted(c, previous, id, bids)] else done.samples)
      else if Stays(c, previous, id) then
        done.(book := book.(bids := book.bids[id := previous.bids[id]],
                            overrides := book.overrides[id := DatedAt(previous, id).value],
                            readings := book.readings[id := History(previous, id)]))
      else done
  }

  predicate Distinct(listings: seq<Listing>) {
    forall i, j :: 0 <= i < j < |listings| ==> listings[i].commodity != listings[j].commodity
  }

  // ---------------------------------------------------------------- cleanness

  /** Read outside every shock then on record, and not after the date it carries. */
  predicate CleanReading(port: string, commodity: string, r: Reading, at: int) {
    r.at <= at && forall shock <- r.known :: !InForce(shock, port, commodity, r.at)
  }

  predicate CleanBook(port: string, book: Book) {
    forall id <- book.bids ::
      DatedAt(book, id).Some? && id in book.readings
          && CleanReading(port, id, book.readings[id], DatedAt(book, id).value)
  }

  predicate CleanSample(sample: Sample) {
    && CleanReading(sample.port, sample.commodity, sample.before, sample.from)
    && CleanReading(sample.port, sample.commodity, sample.after, sample.to)
    // Nothing known by then was in force between the two.
    && sample.from <= sample.to
    && forall shock <- sample.after.known :: !Overlaps(shock, sample.port, sample.commodity, sample.from, sample.to)
  }

  lemma {:induction false} OverlapsNone(shocks: seq<Shock>, port: string, commodity: string, from: int, to: int)
    requires from <= to
    ensures Overlapping(shocks, port, commodity, Some(from), to).None?
            <==> forall shock <- shocks :: !Overlaps(shock, port, commodity, from, to)
    decreases |shocks|
  {
    if shocks != [] {
      OverlapsNone(shocks[1..], port, commodity, from, to);
      assert shocks == [shocks[0]] + shocks[1..];
    }
  }

  lemma FreshReadingClean(c: Capture, commodity: string)
    requires c.from <= c.readAt <= c.to && Replaces(c, commodity)
    ensures CleanReading(c.port, commodity, Reading(c.readAt, c.shocks, c.events), c.to)
  {
    OverlapsNone(c.shocks, c.port, commodity, c.from, c.to);
  }

  lemma FreshSampleClean(c: Capture, previous: Book, commodity: string, bids: seq<Depth.Bid>)
    requires c.from <= c.readAt <= c.to && CleanBook(c.port, previous)
    requires Replaces(c, commodity) && Drifts(c, previous, commodity, bids)
    ensures CleanSample(Drifted(c, previous, commodity, bids))
  {
    FreshReadingClean(c, commodity);
    OverlapsNone(c.shocks, c.port, commodity, DatedAt(previous, commodity).value, c.to);
  }

  /** A truly bracketed capture keeps the memory clean. */
  lemma {:induction false} GatherClean(listings: seq<Listing>, c: Capture, previous: Book)
    requires c.from <= c.readAt <= c.to && CleanBook(c.port, previous) && Distinct(listings)
    ensures var g := Gather(listings, c, previous);
            && CleanBook(c.port, g.book) && g.book.observedAt == Some(c.to)
            && (forall id <- g.book.bids :: exists i :: 0 <= i < |listings| && listings[i].commodity == id)
            && (forall id <- g.book.overrides :: id in g.book.bids)
            && forall sample <- g.samples :: CleanSample(sample) && sample.port == c.port
    decreases |listings|
  {
    if listings != [] {
      var front, last := listings[..|listings| - 1], listings[|listings| - 1];
      GatherClean(front, c, previous);
      var done, g := Gather(front, c, previous), Gather(listings, c, previous);
      forall id <- done.book.bids ensures id != last.commodity {
        var i :| 0 <= i < |front| && front[i].commodity == id;
        assert listings[i].commodity == id;
      }
      forall id <- g.book.bids ensures exists i :: 0 <= i < |listings| && listings[i].commodity == id {
        if id in done.book.bids {
          var i :| 0 <= i < |front| && front[i].commodity == id;
          assert listings[i].commodity == id;
        } else {
          assert listings[|listings| - 1].commodity == id;
        }
      }
      if last.levels.Some? && Replaces(c, last.commodity) {
        FreshReadingClean(c, last.commodity);
        if Drifts(c, previous, last.commodity, Kept(last, c.owned)) {
          FreshSampleClean(c, previous, last.commodity, Kept(last, c.owned));
        }
      }
    }
  }

  /** What becomes of each listing: exactly the untouched ones are stored afresh,
      exactly the touched ones with an untouched baseline keep it, the rest go. */
  lemma {:induction false} GatherDecides(listings: seq<Listing>, c: Capture, previous: Book, i: nat)
    requires i < |listings| && Distinct(listings)
    ensures var g, id := Gather(listings, c, previous).book, listings[i].commodity;
            if listings[i].levels.None? then id !in g.bids
            else if Replaces(c, id) then
              && id in g.bids && g.bids[id] == Kept(listings[i], c.owned) && id !in g.overrides
              && id in g.readings && g.readings[id] == Reading(c.readAt, c.shocks, c.events)
            else if Stays(c, previous, id) then
              && id in g.bids && g.bids[id] == previous.bids[id]
              && id in g.overrides && Some(g.overrides[id]) == DatedAt(previous, id)
              && id in g.readings && g.readings[id] == History(previous, id)
            else id !in g.bids
    decreases |listings|
  {
    var front, last := listings[..|listings| - 1], listings[|listings| - 1];
    if i < |front| {
      GatherDecides(front, c, previous, i);
      assert listings[i].commodity != last.commodity;
    } else {
      NotGathered(front, c, previous, last.commodity);
    }
  }

  lemma {:induction false} NotGathered(listings: seq<Listing>, c: Capture, previous: Book, id: string)
    requires forall i :: 0 <= i < |listings| ==> listings[i].commodity != id
    ensures id !in Gather(listings, c, previous).book.bids && id !in Gather(listings, c, previous).book.overrides
    decreases |listings|
  {
    if listings != [] {
      NotGathered(listings[..|listings| - 1], c, previous, id);
    }
  }

  /** A known shock was in force when the older book was truly read, and no other one
      is on record between that book's date and `to`. */
  predicate OnlyShock(c: Capture, previous: Book, commodity: string, shock: Shock, to: int) {
    && commodity in previous.readings && DatedAt(previous, commodity).Some?
    && shock in c.shocks && InForce(shock, c.port, commodity, previous.readings[commodity].at)
    && forall other <- c.shocks | other != shock ::
         !Overlaps(other, c.port, commodity, DatedAt(previous, commodity).value, to)
  }

  /** What is learned later is weaker. A book read during a shock that is known by now
      stays the baseline exactly when that shock had ended by the date the book carries. */
  lemma LateShockStays(c: Capture, previous: Book, commodity: string, shock: Shock)
    requires CleanBook(c.port, previous) && Keepable(c, previous, commodity)
    requires OnlyShock(c, previous, commodity, shock, DatedAt(previous, commodity).value)
    ensures Stays(c, previous, commodity) <==> shock.expiresAt <= DatedAt(previous, commodity).value
  {
    var at := DatedAt(previous, commodity).value;
    OverlapsNone(c.shocks, c.port, commodity, at, at);
  }

  /** And it gives a drift sample under exactly the same condition. */
  lemma LateShockDrifts(c: Capture, previous: Book, commodity: string, bids: seq<Depth.Bid>, shock: Shock)
    requires CleanBook(c.port, previous) && Comparable(c, previous, commodity, bids)
    requires OnlyShock(c, previous, commodity, shock, c.to)
    ensures Drifts(c, previous, commodity, bids) <==> shock.expiresAt <= DatedAt(previous, commodity).value
  {
    OverlapsNone(c.shocks, c.port, commodity, DatedAt(previous, commodity).value, c.to);
  }

  /** And it can happen: a shock first reported after the book was stored, and over
      before the book's date, leaves the distorted baseline in place. */
  lemma LateShockMissed()
    ensures
      var late, now_ := Shock("p", "c", 10, 15), Shock("p", "c", 100, 200);
      var previous := Book(Some(20), map["c" := [Depth.Bid(7, 1)]], map[], map["c" := Reading(12, [], [])]);
      var c := Capture("p", 120, 130, 125, [], [now_, late], false, {}, [], 1);
      && CleanBook("p", previous) && InForce(late, "p", "c", previous.readings["c"].at) && late in c.shocks
      && Stays(c, previous, "c")
  {
    var late, now_ := Shock("p", "c", 10, 15), Shock("p", "c", 100, 200);
    assert [now_, late][1..] == [late] && [late][1..] == [];
    assert Overlapping([now_, late], "p", "c", Some(120), 130) == Some(now_);
    assert Overlapping([late], "p", "c", Some(20), 20).None?;
    assert late == [now_, late][1];
  }

  // -------------------------------------------------- events that cannot all be read

  /** The capture knows what can be decoded of its events. */
  predicate Informed(c: Capture) {
    && c.shocks == KnownShocks(c.events)
    && (Malformed(c.events) ==> c.unavailable)
  }

  function KnownShocks(events: seq<Event>): seq<Shock> {
    if Shocks(events).Some? then Shocks(events).value else []
  }

  /** No temporary event then on record was in force when the book was read. */
  predicate Undistorted(port: string, commodity: string, r: Reading) { !Struck(r.events, port, commodity, r.at) }

  predicate UndistortedBook(port: string, book: Book) {
    forall id <- book.bids :: id in book.readings && Undistorted(port, id, book.readings[id])
  }

  predicate UndistortedSample(sample: Sample) {
    && Undistorted(sample.port, sample.commodity, sample.before)
    && Undistorted(sample.port, sample.commodity, sample.after)
  }

  /** A book read while a recorded event was in force becomes the baseline exactly when
      some recorded event, whichever it is, is malformed. */
  lemma StruckReplaces(c: Capture, commodity: string)
    requires Informed(c) && c.from <= c.readAt <= c.to && Struck(c.events, c.port, commodity, c.readAt)
    ensures Replaces(c, commodity) <==> Malformed(c.events)
  {
    ShocksExactly(c.events);
    OverlapsNone(c.shocks, c.port, commodity, c.from, c.to);
    var event :| event in c.events && Strikes(event, c.port, commodity, c.readAt);
    if !Malformed(c.events) {
      assert ShockOf(event) in c.shocks;
    }
  }

  lemma {:induction false} GatheredListed(listings: seq<Listing>, c: Capture, previous: Book, id: string)
      returns (i: nat)
    requires id in Gather(listings, c, previous).book.bids
    ensures i < |listings| && listings[i].commodity == id
    decreases |listings|
  {
    i := |listings| - 1;
    if listings[i].commodity != id {
      i := GatheredListed(listings[..i], c, previous, id);
    }
  }

  /** Some listing was read while a recorded event was in force. */
  predicate AnyStruck(listings: seq<Listing>, events: seq<Event>, port: string, readAt: int) {
    exists i :: 0 <= i < |listings| && listings[i].levels.Some?
                && Struck(events, port, listings[i].commodity, readAt)
  }

  /** Every recorded event can be read, or none was in force at a listing read. */
  predicate SeesThrough(listings: seq<Listing>, c: Capture) {
    !Malformed(c.events) || !AnyStruck(listings, c.events, c.port, c.readAt)
  }

  lemma StoredUndistorted(listings: seq<Listing>, c: Capture, previous: Book, id: string)
    requires Informed(c) && c.from <= c.readAt <= c.to && Distinct(listings) && UndistortedBook(c.port, previous)
    requires id in Gather(listings, c, previous).book.bids && SeesThrough(listings, c)
    ensures
      var g := Gather(listings, c, previous).book;
      id in g.readings && Undistorted(c.port, id, g.readings[id])
  {
    var i := GatheredListed(listings, c, previous, id);
    GatherDecides(listings, c, previous, i);
    if Struck(c.events, c.port, id, c.readAt) {
      StruckReplaces(c, id);
    }
  }

  /** From undistorted baselines a capture gives undistorted ones exactly when no recorded
      event is malformed, or none was in force at a listing it read. */
  lemma UndistortedExactly(listings: seq<Listing>, c: Capture, previous: Book)
    requires Informed(c) && c.from <= c.readAt <= c.to && Distinct(listings) && UndistortedBook(c.port, previous)
    ensures UndistortedBook(c.port, Gather(listings, c, previous).book) <==> SeesThrough(listings, c)
  {
    var g := Gather(listings, c, previous).book;
    if Malformed(c.events) && AnyStruck(listings, c.events, c.port, c.readAt) {
      var i :| 0 <= i < |listings| && listings[i].levels.Some?
               && Struck(c.events, c.port, listings[i].commodity, c.readAt);
      StruckReplaces(c, listings[i].commodity);
      GatherDecides(listings, c, previous, i);
      assert !Undistorted(c.port, listings[i].commodity, g.readings[listings[i].commodity]);
    } else {
      forall id <- g.bids ensures id in g.readings && Undistorted(c.port, id, g.readings[id]) {
        StoredUndistorted(listings, c, previous, id);
      }
    }
  }

  lemma {:induction false} UnavailableGivesNone(listings: seq<Listing>, c: Capture, previous: Book)
    requires c.unavailable
    ensures Gather(listings, c, previous).samples == []
    decreases |listings|
  {
    if listings != [] {
      UnavailableGivesNone(listings[..|listings| - 1], c, previous);
    }
  }

  lemma DriftedUndistorted(c: Capture, previous: Book, commodity: string, bids: seq<Depth.Bid>)
    requires Informed(c) && c.from <= c.readAt <= c.to && UndistortedBook(c.port, previous)
    requires Replaces(c, commodity) && Drifts(c, previous, commodity, bids)
    ensures UndistortedSample(Drifted(c, previous, commodity, bids))
  {
    if Struck(c.events, c.port, commodity, c.readAt) {
      StruckReplaces(c, commodity);
    }
  }

  /** No drift sample is distorted: where a recorded event is hidden there are none. */
  lemma {:induction false} SamplesUndistorted(listings: seq<Listing>, c: Capture, previous: Book)
    requires Informed(c) && c.from <= c.readAt <= c.to && UndistortedBook(c.port, previous)
    ensures forall sample <- Gather(listings, c, previous).samples :: UndistortedSample(sample)
    decreases |listings|
  {
    if listings != [] {
      var front, last := listings[..|listings| - 1], listings[|listings| - 1];
      SamplesUndistorted(front, c, previous);
      if last.levels.Some? && Replaces(c, last.commodity) {
        if Drifts(c, previous, last.commodity, Kept(last, c.owned)) {
          DriftedUndistorted(c, previous, last.commodity, Kept(last, c.owned));
        }
      }
    }
  }

  // ---------------------------------------------------------------- the recorder

  /** A port's books as captured in one pass; `readAt` records history only. */
  datatype PortBooks = PortBooks(
    port: string, quay: bool, current: bool, meta: Meta, readAt: int, listings: seq<Listing>)

  /** What a whole pass shares. */
  datatype Pass = Pass(
    now: int,
    clock: Clock,
    scale: int,
    feed: Feed,
    tracked: bool,
    current: bool,
    owned: set<string>,
    fills: seq<Fill>,
    ports: set<string>,
    retention: int)

  /** The recorded list of world events. */
  datatype Feed = Missing | Unreadable | Recorded(events: seq<Event>)

  function EventsOf(feed: Feed): seq<Event> { if feed.Recorded? then feed.events else [] }

  predicate Decodes(feed: Feed) { feed.Recorded? && Shocks(feed.events).Some? }

  // A list that is not there at all counts as invalid only when it is being tracked.
  predicate Unavailable(pass: Pass) {
    || (!Decodes(pass.feed) && (pass.tracked || !pass.feed.Missing?))
    || (pass.tracked && !pass.current)
  }

  function Captured(pass: Pass, books: PortBooks, bounds: (int, int)): Capture {
    Capture(books.port, bounds.0, bounds.1, books.readAt, EventsOf(pass.feed), KnownShocks(EventsOf(pass.feed)),
            Unavailable(pass), pass.owned, pass.fills, pass.scale)
  }

  /** Either every recorded event can be read, or none was in force at a book captured. */
  predicate Heeded(pass: Pass, captured: seq<PortBooks>) {
    || !Malformed(EventsOf(pass.feed))
    || forall books <- captured :: !AnyStruck(books.listings, EventsOf(pass.feed), books.port, books.readAt)
  }

  lemma CapturedInformed(pass: Pass, books: PortBooks, bounds: (int, int))
    ensures Informed(Captured(pass, books, bounds))
  {
    ShocksExactly(EventsOf(pass.feed));
  }

  /** What a capture makes of a listing read while a recorded event was in force: the
      distorted book is stored afresh exactly when some recorded event is malformed. */
  lemma StruckStoredExactly(pass: Pass, books: PortBooks, offset: int, previous: Book, i: nat)
    requires ClockTrue(pass.clock, offset) && ReadTrue(books.meta, offset, books.readAt) && Distinct(books.listings)
    requires ObservationBounds(pass.now, pass.clock, books.meta).Some?
    requires i < |books.listings| && books.listings[i].levels.Some?
    requires Struck(EventsOf(pass.feed), books.port, books.listings[i].commodity, books.readAt)
    ensures
      var c := Captured(pass, books, ObservationBounds(pass.now, pass.clock, books.meta).value);
      var g, id := Gather(books.listings, c, previous).book, books.listings[i].commodity;
      id in g.bids && id !in g.overrides <==> Malformed(EventsOf(pass.feed))
  {
    var bounds := ObservationBounds(pass.now, pass.clock, books.meta).value;
    var c := Captured(pass, books, bounds);
    ObservationSound(pass.now, pass.clock, books.meta, offset, books.readAt);
    CapturedInformed(pass, books, bounds);
    StruckReplaces(c, books.listings[i].commodity);
    GatherDecides(books.listings, c, previous, i);
  }

  const Drought := Event("d", "drought", "p", "c", Some(-10), 10, false)
  const Garbled := Event("", "drought", "q", "c", Some(-10), 10, false)
  const Instant := Meta(Some(0), Some(0), None, true)

  function PassWith(events: seq<Event>): Pass {
    Pass(0, Clock(Some(0), Instant), 1, Recorded(events), true, true, {}, [], {"p"}, 0)
  }

  const Quay := PortBooks("p", true, true, Instant, 0, [Listing("c", Some([]))])

  function Stored(events: seq<Event>): Gathered {
    Gather(Quay.listings, Captured(PassWith(events), Quay, (0, 0)), NoBook)
  }

  lemma DroughtHeeded()
    ensures Struck([Drought], "p", "c", 0) && "c" !in Stored([Drought]).book.bids
  {
    assert Drought in [Drought] && Strikes(Drought, "p", "c", 0);
    StruckStoredExactly(PassWith([Drought]), Quay, 0, NoBook, 0);
    GatherDecides(Quay.listings, Captured(PassWith([Drought]), Quay, (0, 0)), NoBook, 0);
  }

  /** And it happens: a malformed event about another port lets a book in that was read
      during a drought on record, which without it stays out. */
  lemma MalformedStores()
    ensures ObservationBounds(0, Clock(Some(0), Instant), Instant) == Some((0, 0))
    ensures Struck([Drought, Garbled], "p", "c", 0)
    ensures "c" !in Stored([Drought]).book.bids && "c" in Stored([Drought, Garbled]).book.bids
  {
    DroughtHeeded();
    var events := [Drought, Garbled];
    assert Drought in events && Strikes(Drought, "p", "c", 0);
    assert Garbled in events && !ValidEvent(Garbled);
    StruckStoredExactly(PassWith(events), Quay, 0, NoBook, 0);
  }

  predicate IsYoung(observed: Option<int>, serverNow: int, scale: int) {
    var age := AgeDays(serverNow, observed, scale);
    age.Some? && age.value <= MAX_AGE_DAYS
  }

  function YoungIds(book: Book, serverNow: int, scale: int): set<string> {
    set id | id in book.bids && IsYoung(DatedAt(book, id), serverNow, scale)
  }

  // The readings of what is dropped are history.
  function Restricted(book: Book, ids: set<string>): Book {
    book.(bids := map id | id in book.bids && id in ids :: book.bids[id],
          overrides := map id | id in book.overrides && (id in ids || id !in book.bids) :: book.overrides[id])
  }

  function Aged(book: Book, serverNow: int, scale: int): Book { Restricted(book, YoungIds(book, serverNow, scale)) }

  function Unshocked(drift: seq<Sample>, shocks: seq<Shock>): seq<Sample> {
    if drift == [] then []
    else
      var last, front := drift[|drift| - 1], Unshocked(drift[..|drift| - 1], shocks);
      if Overlapping(shocks, last.port, last.commodity, Some(last.from), last.to).Some? then front else front + [last]
  }

  lemma {:induction false} UnshockedKeeps(drift: seq<Sample>, shocks: seq<Shock>)
    ensures forall sample <- Unshocked(drift, shocks) ::
              && sample in drift
              && Overlapping(shocks, sample.port, sample.commodity, Some(sample.from), sample.to).None?
    decreases |drift|
  {
    if drift != [] {
      UnshockedKeeps(drift[..|drift| - 1], shocks);
    }
  }

  class QuayMemory {
    var observed: map<string, int>
    var memory: map<string, Book>
    var drift: seq<Sample>

    ghost predicate Clean()
      reads this
    {
      && (forall port <- memory :: CleanBook(port, memory[port]))
      && (forall sample <- drift :: CleanSample(sample))
    }

    ghost predicate BooksUndistorted()
      reads this
    {
      forall port <- memory :: UndistortedBook(port, memory[port])
    }

    ghost predicate DriftUndistorted()
      reads this
    {
      forall sample <- drift :: UndistortedSample(sample)
    }

    constructor ()
      ensures BooksUndistorted() && DriftUndistorted()
      ensures Clean() && memory == map[] && drift == []
    {
      observed, memory, drift := map[], map[], [];
    }

    method FilledByUsBetween(fills: seq<Fill>, port: string, commodity: string, from: int, to: int)
        returns (found: bool)
      ensures found == FilledByUs(fills, port, commodity, from, to)
    {
      for i := 0 to |fills|
        invariant forall k :: 0 <= k < i ==>
                    !(fills[k].port == port && fills[k].commodity == commodity && fills[k].ask
                      && 0 < fills[k].quantity && from <= fills[k].at <= to)
      {
        var fill := fills[i];
        if fill.port == port && fill.commodity == commodity && fill.ask && 0 < fill.quantity
           && from <= fill.at && fill.at <= to {
          return true;
        }
      }
      found := false;
    }

    /** One listing of a port. */
    method GatherListing(done: Gathered, last: Listing, c: Capture, previous: Book, ghost front: seq<Listing>)
        returns (next: Gathered)
      requires done == Gather(front, c, previous)
      ensures next == Gather(front + [last], c, previous)
    {
      assert (front + [last])[..|front|] == front;
      if last.levels.None? {
        return done;
      }
      var id, at := last.commodity, DatedAt(previous, last.commodity);
      var shock := MarketShockOverlapping(c.shocks, c.port, id, Some(c.from), c.to);
      if shock.Some? {
        var oldShock := MarketShockOverlapping(c.shocks, c.port, id, at, if at.Some? then at.value else 0);
        if id in previous.bids && previous.bids[id] != [] && at.Some? && at.value < shock.value.startsAt
           && oldShock.None? {
          return done.(book := done.book.(bids := done.book.bids[id := previous.bids[id]],
                                          overrides := done.book.overrides[id := at.value],
                                          readings := done.book.readings[id := History(previous, id)]));
        }
        return done;
      }
      var buffer, count := Depth.RetainedBookBids(last.levels.value, c.owned);
      var bids := buffer[..count];
      var drifts := DriftsNow(c, previous, id, bids);
      next := Gathered(
        done.book.(bids := done.book.bids[id := bids],
                   readings := done.book.readings[id := Reading(c.readAt, c.shocks, c.events)]),
        if drifts then done.samples + [Drifted(c, previous, id, bids)] else done.samples);
    }

    method DriftsNow(c: Capture, previous: Book, commodity: string, bids: seq<Depth.Bid>) returns (drifts: bool)
      ensures drifts == Drifts(c, previous, commodity, bids)
    {
      var at := DatedAt(previous, commodity);
      var age := AgeDays(c.to, at, c.scale);
      if age.None? || age.value < MIN_DRIFT_DAYS || commodity !in previous.bids || previous.bids[commodity] == []
         || bids == [] || previous.bids[commodity][0].price <= 0 || previous.bids[commodity][0].price > MAXIMUM_PENCE {
        return false;
      }
      var crossed := MarketShockOverlapping(c.shocks, c.port, commodity, at, c.to);
      if crossed.Some? || c.unavailable {
        return false;
      }
      var filled := FilledByUsBetween(c.fills, c.port, commodity, at.value, c.to);
      drifts := !filled;
    }

    method GatherPort(listings: seq<Listing>, c: Capture, previous: Book) returns (g: Gathered)
      ensures g == Gather(listings, c, previous)
    {
      g := Gathered(Book(Some(c.to), map[], map[], map[]), []);
      for i := 0 to |listings|
        invariant g == Gather(listings[..i], c, previous)
      {
        g := GatherListing(g, listings[i], c, previous, listings[..i]);
        assert listings[..i + 1] == listings[..i] + [listings[i]];
      }
      assert listings[..|listings|] == listings;
    }

    /** A current quay capture, newer than the last one, replaces the port's book. */
    method RecordPort(pass: Pass, shocks: seq<Shock>, books: PortBooks) returns (recorded: bool)
      requires ServerBounds(pass.now, pass.clock).Some? && shocks == KnownShocks(EventsOf(pass.feed))
      modifies this
      ensures recorded <==> books.quay && books.current && books.meta.updated.Some?
                            && (books.port in old(observed) ==> old(observed)[books.port] < books.meta.updated.value)
                            && ObservationBounds(pass.now, pass.clock, books.meta).Some?
      ensures !recorded ==> observed == old(observed) && memory == old(memory) && drift == old(drift)
      ensures recorded ==>
                var bounds := ObservationBounds(pass.now, pass.clock, books.meta).value;
                var previous := if books.port in old(memory) then old(memory)[books.port] else NoBook;
                var g := Gather(books.listings, Captured(pass, books, bounds), previous);
                && observed == old(observed)[books.port := books.meta.updated.value]
                && memory == old(memory)[books.port := g.book]
                && drift == old(drift) + g.samples
    {
      if !books.quay || !books.current || books.meta.updated.None?
         || (books.port in observed && books.meta.updated.value <= observed[books.port]) {
        return false;
      }
      var bounds := ObservationBounds(pass.now, pass.clock, books.meta);
      if bounds.None? {
        return false;
      }
      observed := observed[books.port := books.meta.updated.value];
      var previous := if books.port in memory then memory[books.port] else NoBook;
      var (from, to) := bounds.value;
      var c := Capture(books.port, from, to, books.readAt, EventsOf(pass.feed), shocks, Unavailable(pass), pass.owned,
                       pass.fills, pass.scale);
      var g := GatherPort(books.listings, c, previous);
      drift := drift + g.samples;
      memory := memory[books.port := g.book];
      recorded := true;
    }

    ghost predicate Truthful(pass: Pass, books: PortBooks, offset: int) {
      ClockTrue(pass.clock, offset) && ReadTrue(books.meta, offset, books.readAt) && Distinct(books.listings)
    }

    method RecordPortCleanly(pass: Pass, shocks: seq<Shock>, books: PortBooks, ghost offset: int)
      requires Clean() && ServerBounds(pass.now, pass.clock).Some? && Truthful(pass, books, offset)
      requires shocks == KnownShocks(EventsOf(pass.feed))
      modifies this
      ensures Clean()
      ensures old(BooksUndistorted()) && Heeded(pass, [books]) ==> BooksUndistorted()
      ensures (old(BooksUndistorted()) || Malformed(EventsOf(pass.feed))) && old(DriftUndistorted()) ==>
                DriftUndistorted()
    {
      ghost var previous := if books.port in memory then memory[books.port] else NoBook;
      var recorded := RecordPort(pass, shocks, books);
      if recorded {
        ghost var bounds := ObservationBounds(pass.now, pass.clock, books.meta).value;
        ghost var c := Captured(pass, books, bounds);
        ObservationSound(pass.now, pass.clock, books.meta, offset, books.readAt);
        GatherClean(books.listings, c, previous);
        CapturedInformed(pass, books, bounds);
        if UndistortedBook(books.port, previous) {
          UndistortedExactly(books.listings, c, previous);
          SamplesUndistorted(books.listings, c, previous);
        }
        if Malformed(EventsOf(pass.feed)) {
          UnavailableGivesNone(books.listings, c, previous);
        }
      }
    }

    /** Forgets the ports that left the catalogue or have not been seen for long. */
    method ForgetObserved(pass: Pass)
      modifies `observed
      ensures observed == map port | port in old(observed) && port in pass.ports
                                     && pass.now - old(observed)[port] <= pass.retention :: old(observed)[port]
    {
      var rest := observed.Keys;
      while rest != {}
        invariant rest <= old(observed).Keys
        invariant observed == map port | port in old(observed)
                                && (port in rest
                                    || (port in pass.ports && pass.now - old(observed)[port] <= pass.retention))
                              :: old(observed)[port]
        decreases rest
      {
        var port :| port in rest;
        rest := rest - {port};
        if port !in pass.ports || pass.now - observed[port] > pass.retention {
          observed := observed - {port};
        }
      }
    }

    method AgeBook(book: Book, serverNow: int, scale: int) returns (aged: Book)
      ensures aged == Aged(book, serverNow, scale)
    {
      var rest, kept := book.bids.Keys, book.bids.Keys;
      while rest != {}
        invariant rest <= kept <= book.bids.Keys
        invariant forall id <- book.bids :: id in kept <==> id in rest || IsYoung(DatedAt(book, id), serverNow, scale)
        decreases rest
      {
        var id :| id in rest;
        rest := rest - {id};
        if !IsYoung(DatedAt(book, id), serverNow, scale) {
          kept := kept - {id};
        }
      }
      assert kept == YoungIds(book, serverNow, scale);
      aged := Restricted(book, kept);
    }

    /** Drops what is too old, and the ports left with nothing. */
    method AgeMemory(serverNow: int, scale: int)
      modifies `memory
      ensures forall port :: port in memory <==>
                port in old(memory) && Aged(old(memory)[port], serverNow, scale).bids != map[]
      ensures forall port <- memory :: memory[port] == Aged(old(memory)[port], serverNow, scale)
    {
      var next: map<string, Book> := map[];
      var rest := memory.Keys;
      while rest != {}
        invariant rest <= memory.Keys && memory == old(memory)
        invariant forall port :: port in next ==> port in memory && port !in rest
        invariant forall port <- memory :: port !in rest ==>
                    (port in next <==> Aged(memory[port], serverNow, scale).bids != map[])
        invariant forall port <- next :: next[port] == Aged(memory[port], serverNow, scale)
        decreases rest
      {
        var port :| port in rest;
        rest := rest - {port};
        var aged := AgeBook(memory[port], serverNow, scale);
        if aged.bids != map[] {
          next := next[port := aged];
        }
      }
      memory := next;
    }

    /** Drops the samples that a shock now on record crosses, then the oldest. */
    method TrimDrift(shocks: seq<Shock>)
      modifies `drift
      ensures var kept := Unshocked(old(drift), shocks);
              drift == if |kept| > SAMPLE_LIMIT then kept[|kept| - SAMPLE_LIMIT..] else kept
    {
      var kept: seq<Sample> := [];
      for i := 0 to |drift|
        invariant drift == old(drift) && kept == Unshocked(drift[..i], shocks)
      {
        assert drift[..i + 1][..i] == drift[..i];
        var sample := drift[i];
        var crossed := MarketShockOverlapping(shocks, sample.port, sample.commodity, Some(sample.from), sample.to);
        if crossed.None? {
          kept := kept + [sample];
        }
      }
      assert drift[..|drift|] == drift;
      drift := if |kept| > SAMPLE_LIMIT then kept[|kept| - SAMPLE_LIMIT..] else kept;
    }

    /** The shocks of the recorded events. One that is malformed hides them all. */
    method ReadShocks(feed: Feed) returns (shocks: seq<Shock>)
      ensures shocks == KnownShocks(EventsOf(feed))
    {
      if !feed.Recorded? {
        return [];
      }
      var decoded := DecodeMarketShocks(feed.events);
      shocks := if decoded.Some? then decoded.value else [];
    }

    /** One pass over all captured ports. Nothing changes without a valid clock. What it
        stores is clean of the shocks it knows; of every event on record, if all can be
        read or none was in force. */
    method RecordQuayBooks(pass: Pass, captured: seq<PortBooks>, ghost offset: int)
      requires Clean() && forall books <- captured :: Truthful(pass, books, offset)
      modifies this
      ensures Clean()
      ensures old(BooksUndistorted()) && Heeded(pass, captured) ==> BooksUndistorted()
      ensures old(BooksUndistorted()) && old(DriftUndistorted()) ==> DriftUndistorted()
      ensures ServerBounds(pass.now, pass.clock).None? ==>
                observed == old(observed) && memory == old(memory) && drift == old(drift)
      ensures ServerBounds(pass.now, pass.clock).Some? ==>
                && |drift| <= SAMPLE_LIMIT
                && (forall sample <- drift ::
                      Overlapping(KnownShocks(EventsOf(pass.feed)), sample.port, sample.commodity, Some(sample.from),
                                  sample.to).None?)
                && (pass.scale > 0 ==> Young(ServerBounds(pass.now, pass.clock).value.1, pass.scale))
    {
      var shocks := ReadShocks(pass.feed);
      var bounds := ServerBounds(pass.now, pass.clock);
      if bounds.None? {
        return;
      }
      RecordPorts(pass, shocks, captured, offset);
      ForgetObserved(pass);
      if pass.scale > 0 {
        AgeCleanly(bounds.value.1, pass.scale);
      }
      TrimCleanly(shocks);
    }

    method RecordPorts(pass: Pass, shocks: seq<Shock>, captured: seq<PortBooks>, ghost offset: int)
      requires Clean() && ServerBounds(pass.now, pass.clock).Some? && shocks == KnownShocks(EventsOf(pass.feed))
      requires forall books <- captured :: Truthful(pass, books, offset)
      modifies this
      ensures Clean()
      ensures old(BooksUndistorted()) && Heeded(pass, captured) ==> BooksUndistorted()
      ensures old(BooksUndistorted()) && old(DriftUndistorted()) ==> DriftUndistorted()
    {
      for i := 0 to |captured|
        invariant Clean()
        invariant old(BooksUndistorted()) && Heeded(pass, captured[..i]) ==> BooksUndistorted()
        invariant old(BooksUndistorted()) && old(DriftUndistorted()) ==> DriftUndistorted()
      {
        assert captured[i] in captured && captured[..i + 1] == captured[..i] + [captured[i]];
        RecordPortCleanly(pass, shocks, captured[i], offset);
      }
      assert captured[..|captured|] == captured;
    }

    method AgeCleanly(serverNow: int, scale: int)
      requires Clean()
      modifies `memory
      ensures Clean() && Young(serverNow, scale)
      ensures old(BooksUndistorted()) ==> BooksUndistorted()
    {
      AgeMemory(serverNow, scale);
    }

    method TrimCleanly(shocks: seq<Shock>)
      requires Clean()
      modifies `drift
      ensures Clean() && |drift| <= SAMPLE_LIMIT
      ensures old(DriftUndistorted()) ==> DriftUndistorted()
      ensures forall sample <- drift ::
                Overlapping(shocks, sample.port, sample.commodity, Some(sample.from), sample.to).None?
    {
      UnshockedKeeps(drift, shocks);
      TrimDrift(shocks);
    }

    /** Every retained baseline is dated and at most twelve game days old. */
    ghost predicate Young(serverNow: int, scale: int)
      reads this
    {
      forall port <- memory :: forall id <- memory[port].bids ::
        IsYoung(DatedAt(memory[port], id), serverNow, scale)
    }
  }
}
