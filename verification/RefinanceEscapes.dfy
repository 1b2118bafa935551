/** Runs in which two borrower requests are transported at the same due date: the first
    is sent, or sent again, after the due date it was staged for has moved. */
module RefinanceEscapes {
  import opened Options
  import opened Runs
  import opened Refinance

  datatype Trail = Trail(steps: seq<Step>, worlds: seq<World>)

  ghost predicate Follows(w: World, step: Step, v: World) { Next(w, step, v) && Guarded(w, step) }

  ghost predicate Reaches(t: Trail, w: World) { Passes(Start, Follows, t.steps, t.worlds) && Last(t.worlds) == w }

  /** One process, which sends nothing twice. */
  predicate Calm(steps: seq<Step>) { forall step <- steps :: !step.Crash? && !step.Replay? }

  lemma Then(t: Trail, w: World, step: Step, v: World) returns (more: Trail)
    requires Reaches(t, w) && Follows(w, step, v)
    ensures Reaches(more, v)
    ensures Calm(t.steps) && !step.Crash? && !step.Replay? ==> Calm(more.steps)
  {
    more := Trail(t.steps + [step], t.worlds + [v]);
    PassesOn(Start, Follows, t.steps, t.worlds, step, v);
  }

  lemma {:induction false} ReachesLegal(t: Trail, w: World)
    requires Reaches(t, w)
    ensures Legal(t.steps) && GuardedRun(t.steps) && After(t.steps) == w
    decreases |t.steps|
  {
    if t.steps != [] {
      PassesBefore(Start, Follows, t.steps, t.worlds);
      ReachesLegal(Trail(Front(t.steps), Front(t.worlds)), Last(Front(t.worlds)));
    }
  }

  // The loan "l" with one instalment due, and an episode about one of its due dates.
  function Scene(
    key: int := 0,
    phase: Phase := Phase.Request,
    status: Option<Status> := None,
    due: int := 10,
    shown: int := 10,
    listed: bool := true,
    current: bool := true,
    fenced: bool := false,
    begun: bool := false,
    prepared: bool := false,
    saved: bool := false,
    counted: bool := false,
    dates: map<string, int> := map[],
    retryAt: int := 0,
    journaledAt: int := 0,
    now: int := 0,
    free: bool := false,
    dues: set<int> := {},
    posts: seq<Posted> := []): World
  {
    World(
      if key == 0 then None else Some(Episode("l", None, None, phase, 0, Some(key))),
      dates, retryAt,
      if status.Some? then Some(Some(Action(Post, status.value))) else if free then Some(None) else None,
      journaledAt, map["l" := due], {}, map[], {}, now,
      if listed then map["l" := shown] else map[],
      current, fenced, begun, prepared, saved, false, map["l" := shown], dues, counted, posts, 0, 0)
  }

  lemma MovesTo(w: World, due: int)
    requires w.due.Keys == {"l"} && w.due["l"] < due && w.closed == {}
    ensures Follows(w, Fall("l", due), w.(due := map["l" := due]))
  {
    assert w.due["l" := due] == map["l" := due];
  }

  lemma Relists(w: World, due: int)
    requires w.due == map["l" := due] && w.lastDue.Keys <= {"l"} && w.closed == {}
    ensures
      var list := map["l" := due];
      Follows(w, Capture(list), w.(listed := list, lastDue := list, current := true, prepared := false))
  {
    assert w.lastDue + map["l" := due] == map["l" := due];
  }

  // The loan "l" is due at 10, and a request staged for that is attached.
  const Owing := Start.(due := map["l" := 10])
  const Listing := Scene()
  const Prepared := Scene(key := 10, prepared := true)
  const Staged := Scene(key := 10, status := Some(Unsent), fenced := true)

  lemma Owes() returns (t: Trail)
    ensures Reaches(t, Owing) && Calm(t.steps)
  {
    t := Then(Trail([], [Start]), Start, Fall("l", 10), Owing);
  }

  lemma Lists() returns (t: Trail)
    ensures Reaches(t, Listing) && Calm(t.steps)
  {
    t := Owes();
    Relists(Owing, 10);
    t := Then(t, Owing, Capture(map["l" := 10]), Listing);
  }

  lemma Prepares() returns (t: Trail)
    ensures Reaches(t, Prepared) && Calm(t.steps)
  {
    t := Lists();
    t := Then(t, Listing, Prepare("l"), Prepared);
  }

  lemma Stages() returns (t: Trail)
    ensures Reaches(t, Staged) && Calm(t.steps)
  {
    t := Prepares();
    t := Then(t, Prepared, StagePost, Staged);
  }

  // Journaled, and then the process dies before it can transport anything.
  const Journaling := Scene(key := 10, status := Some(Journaled), fenced := true, begun := true)
  const Orphaned := Scene(key := 10, status := Some(Journaled), listed := false, current := false)

  lemma Journals() returns (t: Trail)
    ensures Reaches(t, Journaling) && Calm(t.steps)
  {
    t := Stages();
    t := Then(t, Staged, Begin, Journaling);
  }

  lemma Orphans() returns (t: Trail)
    ensures Reaches(t, Orphaned)
  {
    t := Journals();
    t := Then(t, Journaling, Crash, Orphaned);
  }

  // The instalment falls, and a new pass finds the next one.
  const Fallen := Scene(key := 10, status := Some(Journaled), listed := false, current := false, due := 20)
  const Moved := Scene(key := 10, status := Some(Journaled), due := 20, shown := 20)

  lemma Falls() returns (t: Trail)
    ensures Reaches(t, Fallen)
  {
    t := Orphans();
    MovesTo(Orphaned, 20);
    t := Then(t, Orphaned, Fall("l", 20), Fallen);
  }

  lemma Reappears() returns (t: Trail)
    ensures Reaches(t, Moved)
  {
    t := Falls();
    Relists(Fallen, 20);
    t := Then(t, Fallen, Capture(map["l" := 20]), Moved);
  }

  // The row is replayed at the later due date, without a preflight, and refused.
  const Late := Posted("l", 10, {20})
  const Replayed := Scene(key := 10, status := Some(Sent), due := 20, shown := 20, dues := {20})
  const Rejected :=
    Scene(key := 10, status := Some(Answered(Refused)), due := 20, shown := 20, dues := {20}, posts := [Late])

  lemma Replays() returns (t: Trail)
    ensures Reaches(t, Replayed)
  {
    t := Reappears();
    assert {} + {20} == {20};
    t := Then(t, Moved, Replay, Replayed);
  }

  lemma Rejects() returns (t: Trail)
    ensures Reaches(t, Rejected)
  {
    t := Replays();
    assert [] + [Late] == [Late];
    t := Then(t, Replayed, Reply(Refused), Rejected);
  }

  // Its answer bars the earlier due date only.
  const Noting :=
    Scene(key := 10, phase := Backoff, status := Some(Answered(Refused)), due := 20, shown := 20, dues := {20},
          posts := [Late], dates := map["l" := 10], retryAt := RETRY, counted := true, saved := true)
  const Waiting :=
    Scene(key := 10, phase := Backoff, free := true, due := 20, shown := 20, dues := {20},
          posts := [Late], dates := map["l" := 10], retryAt := RETRY, counted := true)

  lemma Notes() returns (t: Trail)
    ensures Reaches(t, Noting)
  {
    t := Rejects();
    assert Noted(Rejected) == map["l" := 10];
    t := Then(t, Rejected, SaveResult, Noting);
  }

  lemma LetsGo() returns (t: Trail)
    ensures Reaches(t, Waiting)
  {
    t := Notes();
    t := Then(t, Noting, SaveMission, Waiting);
  }

  // The same without a crash: the due date moves while the first send waits its turn,
  // and the event about it arrives after the answer.
  const Slipped := Journaling.(due := map["l" := 20])
  const SentLate := Scene(key := 10, status := Some(Sent), fenced := true, due := 20, dues := {20})
  const RejectedLate :=
    Scene(key := 10, status := Some(Answered(Refused)), fenced := true, due := 20, dues := {20}, posts := [Late])

  lemma Slips() returns (t: Trail)
    ensures Reaches(t, Slipped) && Calm(t.steps)
  {
    t := Journals();
    MovesTo(Journaling, 20);
    t := Then(t, Journaling, Fall("l", 20), Slipped);
  }

  lemma SendsLate() returns (t: Trail)
    ensures Reaches(t, SentLate) && Calm(t.steps)
  {
    t := Slips();
    assert {} + {20} == {20};
    t := Then(t, Slipped, Transmit, SentLate);
  }

  lemma RejectsLate() returns (t: Trail)
    ensures Reaches(t, RejectedLate) && Calm(t.steps)
  {
    t := SendsLate();
    assert [] + [Late] == [Late];
    t := Then(t, SentLate, Reply(Refused), RejectedLate);
  }

  const NotingLate := Noting.(fenced := true, listed := map["l" := 10], lastDue := map["l" := 10])
  const WaitingLate := Waiting.(fenced := true, listed := map["l" := 10], lastDue := map["l" := 10])
  const HeardLate := WaitingLate.(fenced := false, current := false)

  lemma NotesLate() returns (t: Trail)
    ensures Reaches(t, NotingLate) && Calm(t.steps)
  {
    t := RejectsLate();
    assert Noted(RejectedLate) == map["l" := 10];
    t := Then(t, RejectedLate, SaveResult, NotingLate);
  }

  lemma LetsGoLate() returns (t: Trail)
    ensures Reaches(t, WaitingLate) && Calm(t.steps)
  {
    t := NotesLate();
    t := Then(t, NotingLate, SaveMission, WaitingLate);
  }

  lemma HearsLate() returns (t: Trail)
    ensures Reaches(t, HeardLate) && Calm(t.steps)
  {
    t := LetsGoLate();
    t := Then(t, WaitingLate, Event, HeardLate);
  }

  lemma RelistsLate() returns (t: Trail)
    ensures Reaches(t, Waiting) && Calm(t.steps)
  {
    t := HearsLate();
    Relists(HeardLate, 20);
    t := Then(t, HeardLate, Capture(map["l" := 20]), Waiting);
  }

  // A day later the later due date is asked for, after either beginning.
  const Rested :=
    Scene(key := 10, phase := Backoff, free := true, due := 20, shown := 20, dues := {20}, now := RETRY,
          posts := [Late], dates := map["l" := 10], retryAt := RETRY, counted := true)

  lemma Rests(before: Trail) returns (t: Trail)
    requires Reaches(before, Waiting)
    ensures Reaches(t, Rested) && (Calm(before.steps) ==> Calm(t.steps))
  {
    t := Then(before, Waiting, Tick(RETRY), Rested);
  }

  const Renewed :=
    Scene(key := 20, prepared := true, free := true, due := 20, shown := 20, dues := {20}, now := RETRY,
          posts := [Late], dates := map["l" := 10], retryAt := RETRY, counted := true)
  const Again :=
    Scene(key := 20, status := Some(Unsent), fenced := true, due := 20, shown := 20, now := RETRY,
          posts := [Late], dates := map["l" := 10], retryAt := RETRY, counted := true)

  lemma PreparesAgain(before: Trail) returns (t: Trail)
    requires Reaches(before, Waiting)
    ensures Reaches(t, Renewed) && (Calm(before.steps) ==> Calm(t.steps))
  {
    t := Rests(before);
    t := Then(t, Rested, Prepare("l"), Renewed);
  }

  lemma StagesAgain(before: Trail) returns (t: Trail)
    requires Reaches(before, Waiting)
    ensures Reaches(t, Again) && (Calm(before.steps) ==> Calm(t.steps))
  {
    t := PreparesAgain(before);
    t := Then(t, Renewed, StagePost, Again);
  }

  const Restarted :=
    Scene(key := 20, status := Some(Journaled), fenced := true, begun := true, due := 20, shown := 20, now := RETRY,
          journaledAt := RETRY, posts := [Late], dates := map["l" := 10], retryAt := RETRY, counted := true)
  const Resent :=
    Scene(key := 20, status := Some(Sent), fenced := true, due := 20, shown := 20, now := RETRY, dues := {20},
          journaledAt := RETRY, posts := [Late], dates := map["l" := 10], retryAt := RETRY, counted := true)
  const Repeated :=
    Scene(key := 20, status := Some(Answered(Refused)), fenced := true, due := 20, shown := 20, now := RETRY,
          dues := {20}, journaledAt := RETRY, posts := [Late, Posted("l", 20, {20})], dates := map["l" := 10],
          retryAt := RETRY)

  lemma JournalsAgain(before: Trail) returns (t: Trail)
    requires Reaches(before, Waiting)
    ensures Reaches(t, Restarted) && (Calm(before.steps) ==> Calm(t.steps))
  {
    t := StagesAgain(before);
    t := Then(t, Again, Begin, Restarted);
  }

  lemma SendsAgain(before: Trail) returns (t: Trail)
    requires Reaches(before, Waiting)
    ensures Reaches(t, Resent) && (Calm(before.steps) ==> Calm(t.steps))
  {
    t := JournalsAgain(before);
    assert {} + {20} == {20};
    t := Then(t, Restarted, Transmit, Resent);
  }

  lemma Repeats(before: Trail) returns (t: Trail)
    requires Reaches(before, Waiting)
    ensures Reaches(t, Repeated) && (Calm(before.steps) ==> Calm(t.steps))
  {
    t := SendsAgain(before);
    assert [Late] + [Posted("l", 20, {20})] == Repeated.posts;
    t := Then(t, Resent, Reply(Refused), Repeated);
  }

  // Two requests for "l", both transported while it is due at 20.
  ghost predicate AskedTwice(steps: seq<Step>) {
    && Legal(steps) && GuardedRun(steps)
    && After(steps).posts == [Late, Posted("l", 20, {20})]
    && !DistinctDues(After(steps).posts)
  }

  lemma AsksTwice(before: Trail) returns (t: Trail)
    requires Reaches(before, Waiting)
    ensures AskedTwice(t.steps) && (Calm(before.steps) ==> Calm(t.steps))
  {
    t := Repeats(before);
    ReachesLegal(t, Repeated);
    assert 20 in Repeated.posts[0].dues && 20 in Repeated.posts[1].dues;
  }

  /** A request journaled before a crash and replayed at the next due date is recorded
      for the one it was staged for, so a second request follows. */
  lemma SecondRequestForOneDueDate() returns (steps: seq<Step>)
    ensures AskedTwice(steps)
  {
    var t := LetsGo();
    t := AsksTwice(t);
    steps := t.steps;
  }

  /** So it is when no process dies and nothing is sent twice: a request staged for one
      due date is first sent at the next, before the event about the move arrives. */
  lemma SecondRequestAfterLateEvent() returns (steps: seq<Step>)
    ensures AskedTwice(steps) && Calm(steps)
  {
    var t := RelistsLate();
    t := AsksTwice(t);
    steps := t.steps;
  }
}
