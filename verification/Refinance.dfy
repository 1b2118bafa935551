/** The refinance controller: one borrower request per instalment, one replacement
    loan per episode and a bounded number of unconfirmed payoffs, across crashes
    between any two of its durable writes. */
module Refinance {
  import opened Options
  import opened Runs
  import Upstream

  const RETRY := 86400
  const PAYOFF_LIMIT := 3

  datatype Phase = Request | Wait | Approve | Repay | RepayWait | Backoff

  /** The `_loan_refinance` record; `dueKey` is the due date the request is for. */
  datatype Episode = Episode(
    loan: string,
    request: Option<nat>,
    newLoan: Option<nat>,
    phase: Phase,
    attempts: nat,
    dueKey: Option<int>)

  datatype Stage = Post | Accept | Payoff

  // Denied stands for the authorization and rate-limit refusals 401, 403 and 429.
  datatype Answer = Granted(id: nat) | Confirmed | Unconfirmed | Refused | Denied

  datatype Status = Unsent | Journaled | Sent | Answered(answer: Answer)

  datatype Action = Action(stage: Stage, status: Status)

  /** A definitive borrower request: the due date it was staged for and the ones
      that stood when it was transported. */
  datatype Posted = Posted(loan: string, key: int, dues: set<int>)

  /** `episode`, `dates`, `retryAt`, `mission` and `journaledAt` are durable; `due`,
      `requests`, `funded` and `closed` belong to the server. The process knows the loans
      `listed`, whether no financial event has arrived since (`current`) or since its
      action was staged (`fenced`), and whether it has itself just journaled that action
      (`begun`). The last seven fields are history. */
  datatype World = World(
    episode: Option<Episode>,
    dates: map<string, int>,
    retryAt: int,
    mission: Option<Option<Action>>,
    journaledAt: int,
    due: map<string, int>,
    requests: set<nat>,
    funded: map<nat, nat>,
    closed: set<string>,
    now: int,
    listed: map<string, int>,
    current: bool,
    fenced: bool,
    begun: bool,
    prepared: bool,
    saved: bool,
    finishing: bool,
    lastDue: map<string, int>,
    dues: set<int>,
    counted: bool,
    posts: seq<Posted>,
    took: nat,
    unconfirmed: nat)

  const Start := World(
    None, map[], 0, None, 0, map[], {}, map[], {}, 0, map[], false, false, false, false, false, false,
    map[], {}, false, [], 0, 0)

  datatype Step =
    | Prepare(loan: string)
    | StagePost
    | Adopt(loan: string, id: nat)
    | FindLoan
    | StageAccept
    | MarkApproved
    | StagePayoff
    | RetryPayoff
    | ResetAccept
    | Unsend
    | Begin
    | Transmit
    | Replay
    | Reply(answer: Answer)
    | SaveResult
    | SaveMission
    | Lapse
    | FinishMission
    | FinishState
    | DropMission
    | Fall(loan: string, due: int)
    | Capture(list: map<string, int>)
    | Close(loan: string)
    | Event
    | Tick(elapsed: nat)
    | Crash

  predicate Free(w: World) { w.mission.None? || w.mission.value.None? }

  predicate Busy(w: World) { w.mission.Some? && w.mission.value.Some? && w.episode.Some? }

  predicate Attached(w: World, stage: Stage) { Busy(w) && w.mission.value.value.stage == stage }

  predicate InStatus(w: World, stage: Stage, status: Status) {
    Attached(w, stage) && w.mission.value.value.status == status
  }

  predicate Settled(w: World, stage: Stage) { Attached(w, stage) && w.mission.value.value.status.Answered? }

  /** Journaled, so possibly sent, and not answered. */
  predicate InFlight(w: World, stage: Stage) {
    Attached(w, stage) && (w.mission.value.value.status.Journaled? || w.mission.value.value.status.Sent?)
  }

  predicate Posting(w: World) { Attached(w, Post) && !w.mission.value.value.status.Answered? }

  // Nothing was transported: not journaled, or by this process and not sent yet.
  predicate KnownUnsent(w: World) {
    Busy(w) && (w.mission.value.value.status.Unsent? || (w.mission.value.value.status.Journaled? && w.begun))
  }

  function Reached(w: World): Answer
    requires w.mission.Some? && w.mission.value.Some? && w.mission.value.value.status.Answered?
  {
    w.mission.value.value.status.answer
  }

  predicate MayRequest(w: World, loan: string) {
    loan in w.listed && (loan in w.dates ==> w.dates[loan] != w.listed[loan]) && w.retryAt <= w.now
  }

  predicate Fits(w: World, stage: Stage, answer: Answer) {
    match answer
    case Granted(id) => (stage.Post? && id !in w.requests) || stage.Accept?
    case Confirmed => stage.Payoff?
    case Unconfirmed => stage.Payoff?
    case Refused => true
    case Denied => true
  }

  // An unresolved controller with no replacement and no request of its own.
  predicate Unrequested(w: World) {
    w.episode.Some? && w.episode.value.newLoan.None? && w.episode.value.request.None?
  }

  predicate Approvable(w: World) {
    && w.episode.Some?
    && w.episode.value.newLoan.None?
    && w.episode.value.request.Some?
    && w.episode.value.request.value !in w.funded
  }

  predicate Payable(w: World) { w.episode.Some? && w.episode.value.newLoan.Some? && w.episode.value.phase.Repay? }

  /** The fences and the preflight, passed before journaling and again before the
      first transport. A replayed row passes neither. */
  predicate Cleared(w: World) {
    && Busy(w) && w.fenced
    && match w.mission.value.value.stage
       case Post => Unrequested(w) && MayRequest(w, w.episode.value.loan)
       case Accept => Approvable(w)
       case Payoff => Payable(w)
  }

  predicate Enabled(w: World, step: Step) {
    match step
    case Prepare(loan) =>
      && Free(w) && !w.finishing
      && MayRequest(w, loan)
      && (w.episode.Some? ==> w.episode.value.loan == loan && Unrequested(w))
    case StagePost => Free(w) && !w.finishing && w.current && w.prepared && Unrequested(w)
    case Adopt(loan, id) =>
      && Free(w) && !w.finishing
      && loan in w.listed
      && id in w.requests && id !in w.funded
      && (w.episode.Some? ==> w.episode.value.loan == loan && Unrequested(w))
      && (w.episode.None? || w.episode.value.phase.Backoff? ==> MayRequest(w, loan))
    case FindLoan =>
      && Free(w) && !w.finishing
      && w.episode.Some? && w.episode.value.newLoan.None?
      && w.episode.value.request.Some? && w.episode.value.request.value in w.funded
    case StageAccept => Free(w) && !w.finishing && w.current && Approvable(w)
    case MarkApproved => InStatus(w, Accept, Unsent)
    case StagePayoff => Free(w) && !w.finishing && w.current && Payable(w)
    case RetryPayoff =>
      && Free(w) && !w.finishing
      && w.episode.Some? && w.episode.value.newLoan.Some?
      && w.episode.value.phase.RepayWait? && w.episode.value.attempts < PAYOFF_LIMIT
    case ResetAccept => KnownUnsent(w) && Attached(w, Accept) && w.episode.value.newLoan.None?
    case Unsend => KnownUnsent(w)
    case Begin => Cleared(w) && w.mission.value.value.status.Unsent?
    case Transmit => Cleared(w) && w.mission.value.value.status.Journaled? && w.begun
    case Replay =>
      && Busy(w) && !w.begun
      && (w.mission.value.value.status.Journaled? || w.mission.value.value.status.Sent?)
      && w.now < w.journaledAt + Upstream.REPLAY_WINDOW - Upstream.CUTOFF
    case Reply(answer) =>
      Busy(w) && w.mission.value.value.status.Sent? && Fits(w, w.mission.value.value.stage, answer)
    case SaveResult => !w.finishing && Busy(w) && w.mission.value.value.status.Answered?
    case SaveMission => w.saved && Busy(w) && w.mission.value.value.status.Answered?
    case Lapse => Free(w) && !w.finishing && Approvable(w)
    case FinishMission => w.episode.Some? && (Free(w) || (Settled(w, Accept) && Reached(w).Granted?))
    case FinishState => w.finishing && w.episode.Some?
    case DropMission => w.episode.None? && Free(w)
    // The server moves a due date. The event about it arrives later.
    case Fall(loan, due) => loan !in w.closed && (loan in w.due ==> w.due[loan] < due)
    case Capture(list) => forall loan <- list :: loan !in w.closed && loan in w.due && list[loan] == w.due[loan]
    case Close(loan) => true
    case Event => true
    case Tick(elapsed) => true
    case Crash => true
  }

  // ------------------------------------------- what each step writes, field by field

  /** Forgets the loans that are no longer listed and notes this one's due date. */
  function RecordDue(dates: map<string, int>, listed: map<string, int>, loan: string, key: int): map<string, int> {
    (map id | id in dates && id in listed :: dates[id])[loan := key]
  }

  function DueKey(w: World): int
    requires w.episode.Some?
  {
    if w.episode.value.dueKey.Some? then w.episode.value.dueKey.value
    else if w.episode.value.loan in w.listed then w.listed[w.episode.value.loan]
    else 0
  }

  function Noted(w: World): map<string, int>
    requires w.episode.Some?
  {
    if w.episode.value.loan in w.listed then RecordDue(w.dates, w.listed, w.episode.value.loan, DueKey(w)) else w.dates
  }

  // A definitive answer to a borrower request.
  predicate Definitive(w: World) { Settled(w, Post) && !Reached(w).Denied? }

  function AdoptedKey(w: World): Option<int> {
    if w.episode.None? || w.episode.value.phase.Backoff? then None else w.episode.value.dueKey
  }

  function ResultEpisode(w: World): Episode
    requires Busy(w) && w.mission.value.value.status.Answered?
  {
    var e, answer := w.episode.value, Reached(w);
    match w.mission.value.value.stage
    case Post =>
      if answer.Granted? then e.(request := Some(answer.id), phase := Wait)
      else if answer.Denied? then e
      else e.(request := None, phase := Backoff)
    case Accept =>
      if answer.Granted? then e.(newLoan := Some(answer.id), phase := Repay)
      else if e.newLoan.None? then e.(phase := Wait)
      else e
    case Payoff =>
      if answer.Confirmed? then e.(phase := RepayWait)
      else if answer.Denied? then e
      else e.(phase := RepayWait, attempts := e.attempts + 1)
  }

  function NextEpisode(w: World, step: Step): Option<Episode>
    requires Enabled(w, step)
  {
    match step
    case Prepare(loan) => Some(Episode(loan, None, None, Request, 0, Some(w.listed[loan])))
    case Adopt(loan, id) => Some(Episode(loan, Some(id), None, Wait, 0, AdoptedKey(w)))
    case FindLoan =>
      var e := w.episode.value;
      Some(e.(newLoan := Some(w.funded[e.request.value]), phase := Repay))
    case MarkApproved => Some(w.episode.value.(phase := Approve))
    case RetryPayoff => Some(w.episode.value.(phase := Repay))
    case ResetAccept => Some(w.episode.value.(phase := Wait))
    case SaveResult => Some(ResultEpisode(w))
    case Lapse => Some(w.episode.value.(request := None, phase := Backoff))
    case FinishState => None
    case _ => w.episode
  }

  function NextDates(w: World, step: Step): map<string, int>
    requires Enabled(w, step)
  {
    match step
    case Adopt(loan, _) =>
      RecordDue(w.dates, w.listed, loan, if AdoptedKey(w).Some? then AdoptedKey(w).value else w.listed[loan])
    case SaveResult => if Definitive(w) then Noted(w) else w.dates
    case _ => w.dates
  }

  function NextRetryAt(w: World, step: Step): int
    requires Enabled(w, step)
  {
    match step
    case SaveResult => if Definitive(w) && !Reached(w).Granted? then w.now + RETRY else w.retryAt
    case Lapse => w.now + RETRY
    case FinishState => if w.episode.value.request.Some? then w.now + RETRY else w.retryAt
    case _ => w.retryAt
  }

  function NextMission(w: World, step: Step): Option<Option<Action>>
    requires Enabled(w, step)
  {
    match step
    case StagePost => Some(Some(Action(Post, Unsent)))
    case StageAccept => Some(Some(Action(Accept, Unsent)))
    case StagePayoff => Some(Some(Action(Payoff, Unsent)))
    case Unsend => Some(None)
    case Begin => Some(Some(w.mission.value.value.(status := Journaled)))
    case Transmit => Some(Some(w.mission.value.value.(status := Sent)))
    case Replay => Some(Some(w.mission.value.value.(status := Sent)))
    case Reply(answer) => Some(Some(w.mission.value.value.(status := Answered(answer))))
    case SaveMission => Some(None)
    case FinishMission => None
    case DropMission => None
    case _ => w.mission
  }

  predicate Posts(w: World, step: Step) { step.Reply? && Attached(w, Post) && !step.answer.Denied? }

  predicate Funds(w: World, step: Step) {
    step.Reply? && Attached(w, Accept) && step.answer.Granted? && w.episode.value.request.Some?
  }

  predicate Fails(w: World, step: Step) {
    step.Reply? && Attached(w, Payoff) && (step.answer.Unconfirmed? || step.answer.Refused?)
  }

  function DueNow(w: World): set<int> {
    if w.episode.Some? && w.episode.value.loan in w.due then {w.due[w.episode.value.loan]} else {}
  }

  function NextDues(w: World, step: Step): set<int> {
    match step
    case StagePost => {}
    case Transmit => w.dues + DueNow(w)
    case Replay => w.dues + DueNow(w)
    case _ => w.dues
  }

  function NextPosts(w: World, step: Step): seq<Posted> {
    if Posts(w, step) then w.posts + [Posted(w.episode.value.loan, DueKey(w), w.dues)] else w.posts
  }

  function Apply(w: World, step: Step): World
    requires Enabled(w, step)
  {
    World(
      NextEpisode(w, step),
      NextDates(w, step),
      NextRetryAt(w, step),
      NextMission(w, step),
      if step.Begin? then w.now else w.journaledAt,
      if step.Fall? then w.due[step.loan := step.due] else w.due,
      if Posts(w, step) && step.answer.Granted? then w.requests + {step.answer.id} else w.requests,
      if Funds(w, step) then w.funded[w.episode.value.request.value := step.answer.id] else w.funded,
      if step.Close? then w.closed + {step.loan} else w.closed,
      if step.Tick? then w.now + step.elapsed else w.now,
      if step.Capture? then step.list else if step.Crash? then map[] else w.listed,
      step.Capture? || (w.current && !step.Crash? && !step.Event?),
      step.StagePost? || step.StageAccept? || step.StagePayoff? || (w.fenced && !step.Crash? && !step.Event?),
      step.Begin? || (w.begun && !step.Transmit? && !step.Unsend? && !step.Crash?),
      step.Prepare? || (w.prepared && !step.StagePost? && !step.Adopt? && !step.FinishMission? && !step.FinishState?
                        && !step.Capture? && !step.Crash?),
      step.SaveResult? || (w.saved && !step.Reply? && !step.SaveMission? && !step.FinishMission? && !step.Crash?),
      step.FinishMission? || (w.finishing && !step.FinishState? && !step.Crash?),
      if step.Capture? then w.lastDue + step.list else w.lastDue,
      NextDues(w, step),
      step.SaveResult? || (w.counted && !step.Reply?),
      NextPosts(w, step),
      if step.FinishState? then 0 else if Funds(w, step) then w.took + 1 else w.took,
      if step.FinishState? then 0 else if Fails(w, step) then w.unconfirmed + 1 else w.unconfirmed)
  }

  ghost predicate Legal(steps: seq<Step>)
    decreases |steps|, 0
  {
    steps == [] || (Legal(Front(steps)) && Enabled(After(Front(steps)), Last(steps)))
  }

  ghost function After(steps: seq<Step>): World
    requires Legal(steps)
    decreases |steps|, 1
  {
    if steps == [] then Start else Apply(After(Front(steps)), Last(steps))
  }

  ghost predicate Next(w: World, step: Step, v: World) { Enabled(w, step) && v == Apply(w, step) }

  ghost predicate Ran(steps: seq<Step>, worlds: seq<World>, w: World) {
    Passes(Start, Next, steps, worlds) && Last(worlds) == w
  }

  lemma RunsOn(steps: seq<Step>, worlds: seq<World>, w: World, step: Step)
    requires Ran(steps, worlds, w) && Enabled(w, step)
    ensures Ran(steps + [step], worlds + [Apply(w, step)], Apply(w, step))
  {
    PassesOn(Start, Next, steps, worlds, step, Apply(w, step));
  }

  lemma {:induction false} RanLegal(steps: seq<Step>, worlds: seq<World>, w: World)
    requires Ran(steps, worlds, w)
    ensures Legal(steps) && After(steps) == w
    decreases |steps|
  {
    if steps != [] {
      PassesBefore(Start, Next, steps, worlds);
      RanLegal(Front(steps), Front(worlds), Last(Front(worlds)));
    }
  }

  // ---------------------------------------------------------------- invariant

  predicate DueSound(w: World) {
    && (forall id <- w.listed :: id in w.lastDue && w.listed[id] == w.lastDue[id])
    && (forall id <- w.dates :: id in w.lastDue && w.dates[id] <= w.lastDue[id])
    && (forall id <- w.lastDue :: id in w.due && w.lastDue[id] <= w.due[id])
  }

  /** The due date a request is for was shown in a list, the last one when it is prepared. */
  predicate KeySound(w: World) {
    w.episode.Some? && w.episode.value.dueKey.Some? ==>
      var e := w.episode.value;
      && e.loan in w.lastDue
      && e.dueKey.value <= w.lastDue[e.loan]
      && (e.loan in w.dates ==> w.dates[e.loan] <= e.dueKey.value)
      && (w.prepared ==> e.loan in w.listed && e.dueKey.value == w.listed[e.loan])
  }

  predicate OwnerSound(w: World) {
    && (!Free(w) ==> w.episode.Some? && !w.prepared && !w.finishing)
    && (w.finishing ==> w.mission.None?)
    && (w.begun ==> Busy(w) && w.mission.value.value.status.Journaled?)
  }

  predicate PreparedSound(w: World) {
    && (w.saved ==> w.counted)
    && (w.prepared ==> Unrequested(w) && w.episode.value.dueKey.Some?)
  }

  predicate FlagsSound(w: World) { OwnerSound(w) && PreparedSound(w) }

  predicate PostSound(w: World) {
    Attached(w, Post) ==> w.episode.value.newLoan.None? && w.episode.value.dueKey.Some?
  }

  predicate AcceptSound(w: World) { InFlight(w, Accept) ==> Approvable(w) }

  predicate RepaySound(w: World) {
    && (Attached(w, Payoff) ==> w.episode.value.newLoan.Some?)
    && (InFlight(w, Payoff) ==> Payable(w))
  }

  predicate MissionSound(w: World) { FlagsSound(w) && PostSound(w) && AcceptSound(w) && RepaySound(w) }

  /** A definitive request whose due date is not yet on record. */
  predicate Owed(w: World) { Definitive(w) && !w.counted }

  predicate OnRecord(w: World, p: Posted) {
    || (p.loan in w.dates && p.key <= w.dates[p.loan])
    || (p.loan in w.closed && p.loan !in w.listed)
  }

  predicate PostsSound(w: World) {
    && (forall i :: 0 <= i < |w.posts| - (if Owed(w) then 1 else 0) ==> OnRecord(w, w.posts[i]))
    && (Owed(w) ==>
          && w.posts != [] && w.episode.value.dueKey.Some?
          && Last(w.posts).loan == w.episode.value.loan
          && Last(w.posts).key == w.episode.value.dueKey.value)
  }

  /** No earlier request was for the due date about to be requested. */
  predicate KeyUnused(w: World) {
    w.prepared || Posting(w) ==>
      && w.episode.Some? && w.episode.value.dueKey.Some?
      && forall p <- w.posts :: p.loan == w.episode.value.loan ==> p.key < w.episode.value.dueKey.value
  }

  predicate KeyUnrecorded(w: World) {
    w.prepared || Posting(w) || Owed(w) ==>
      && w.episode.Some? && w.episode.value.dueKey.Some?
      && (w.episode.value.loan in w.dates ==> w.dates[w.episode.value.loan] < w.episode.value.dueKey.value)
  }

  // Each request for a loan is for a later instalment than the ones before.
  predicate Ascending(posts: seq<Posted>) {
    forall i, j :: 0 <= i < j < |posts| && posts[i].loan == posts[j].loan ==> posts[i].key < posts[j].key
  }

  predicate Funded(w: World) {
    w.episode.Some? && (w.episode.value.newLoan.Some?
                        || (w.episode.value.request.Some? && w.episode.value.request.value in w.funded))
  }

  predicate TookSound(w: World) { w.took <= 1 && (w.took == 1 ==> Funded(w)) }

  predicate NoneTaken(w: World) { w.prepared || Attached(w, Post) ==> w.took == 0 }

  predicate Failed(w: World) { Settled(w, Payoff) && (Reached(w).Unconfirmed? || Reached(w).Refused?) && !w.counted }

  predicate PayoffSound(w: World) {
    && (w.episode.None? ==> w.unconfirmed == 0)
    && (w.episode.Some? ==>
          var e := w.episode.value;
          && w.unconfirmed <= e.attempts + (if Failed(w) then 1 else 0)
          && (e.newLoan.None? || e.phase.Repay? ==> e.attempts < PAYOFF_LIMIT)
          && (e.newLoan.None? || Attached(w, Accept) || Attached(w, Post) ==> e.attempts == 0 == w.unconfirmed))
    && w.unconfirmed <= PAYOFF_LIMIT
  }

  predicate Inv(w: World) {
    && DueSound(w) && KeySound(w) && MissionSound(w) && PostsSound(w)
    && KeyUnused(w) && KeyUnrecorded(w) && Ascending(w.posts)
    && TookSound(w) && NoneTaken(w) && PayoffSound(w)
  }

  /** The borrower history still knows this loan. */
  predicate Known(w: World, loan: string) { loan in w.listed || loan in w.closed }

  predicate PostsKnown(w: World) { forall i {:trigger w.posts[i]} :: 0 <= i < |w.posts| ==> Known(w, w.posts[i].loan) }

  /** The borrower history must be complete where a due date is written: the list
      written by shows or has closed each loan requested before, and the loan whose
      answer is being saved for the first time. */
  predicate Guarded(w: World, step: Step) {
    match step
    case Adopt(loan, id) => PostsKnown(w)
    case SaveResult =>
      && (Owed(w) ==> Known(w, w.episode.value.loan))
      && (Definitive(w) && w.episode.value.loan in w.listed ==> PostsKnown(w))
    case _ => true
  }

  // ---------------------------------------------------------------- what steps keep

  lemma DatesShown(w: World, step: Step)
    requires DueSound(w) && KeySound(w) && Enabled(w, step)
    ensures forall id <- NextDates(w, step) :: id in w.lastDue && NextDates(w, step)[id] <= w.lastDue[id]
  {
  }

  lemma StepKeepsDue(w: World, step: Step)
    requires DueSound(w) && KeySound(w) && Enabled(w, step)
    ensures DueSound(Apply(w, step))
  {
    DatesShown(w, step);
  }

  /** Only these steps give the record another loan or due date. */
  predicate Renews(step: Step) { step.Prepare? || step.Adopt? }

  lemma SubjectKept(w: World, step: Step)
    requires Enabled(w, step) && !Renews(step) && NextEpisode(w, step).Some?
    ensures w.episode.Some?
    ensures NextEpisode(w, step).value.loan == w.episode.value.loan
    ensures NextEpisode(w, step).value.dueKey == w.episode.value.dueKey
  {
  }

  lemma DatesBelowKey(w: World, step: Step)
    requires KeySound(w) && Enabled(w, step) && !Renews(step) && w.episode.Some? && w.episode.value.dueKey.Some?
    ensures w.episode.value.loan in NextDates(w, step) ==>
              NextDates(w, step)[w.episode.value.loan] <= w.episode.value.dueKey.value
  {
  }

  lemma RenewedKey(w: World, step: Step)
    requires DueSound(w) && KeySound(w) && MissionSound(w) && Enabled(w, step) && Renews(step)
    ensures KeySound(Apply(w, step))
  {
  }

  lemma StepKeepsKey(w: World, step: Step)
    requires DueSound(w) && KeySound(w) && MissionSound(w) && Enabled(w, step)
    ensures KeySound(Apply(w, step))
  {
    var v := Apply(w, step);
    if Renews(step) {
      RenewedKey(w, step);
    } else if v.episode.Some? && v.episode.value.dueKey.Some? {
      SubjectKept(w, step);
      DatesBelowKey(w, step);
    }
  }

  lemma StepKeepsOwner(w: World, step: Step)
    requires FlagsSound(w) && Enabled(w, step)
    ensures OwnerSound(Apply(w, step))
  {
  }

  lemma StepKeepsPrepared(w: World, step: Step)
    requires FlagsSound(w) && Enabled(w, step)
    ensures PreparedSound(Apply(w, step))
  {
  }

  lemma PostKept(w: World, step: Step)
    requires OwnerSound(w) && Enabled(w, step) && Attached(Apply(w, step), Post) && !step.StagePost?
    ensures Attached(w, Post) && !Renews(step)
    ensures NextEpisode(w, step).Some? && NextEpisode(w, step).value.newLoan == w.episode.value.newLoan
    ensures NextEpisode(w, step).value.dueKey == w.episode.value.dueKey
  {
    PostWas(w, step);
    assert !step.FinishState?;
  }

  lemma PostWas(w: World, step: Step)
    requires OwnerSound(w) && Enabled(w, step) && Attached(Apply(w, step), Post) && !step.StagePost?
    ensures Attached(w, Post) && !Renews(step)
  {
  }

  lemma StepKeepsPost(w: World, step: Step)
    requires FlagsSound(w) && PostSound(w) && Enabled(w, step)
    ensures PostSound(Apply(w, step))
  {
    if Attached(Apply(w, step), Post) && !step.StagePost? {
      PostKept(w, step);
    }
  }

  lemma FlightWas(w: World, step: Step, stage: Stage)
    requires Enabled(w, step) && !step.Begin? && !step.Transmit? && InFlight(Apply(w, step), stage)
    ensures InFlight(w, stage) && !step.Reply?
  {
  }

  /** While a request is in flight, its record changes only by a reset of its phase. */
  lemma FlightKept(w: World, step: Step, stage: Stage)
    requires Enabled(w, step) && InFlight(w, stage)
    ensures NextEpisode(w, step) == w.episode || (step.ResetAccept? && stage.Accept?) || step.FinishState?
  {
  }

  lemma StepKeepsAccept(w: World, step: Step)
    requires AcceptSound(w) && Enabled(w, step)
    ensures AcceptSound(Apply(w, step))
  {
    if InFlight(Apply(w, step), Accept) && !step.Begin? && !step.Transmit? {
      FlightWas(w, step, Accept);
      FlightKept(w, step, Accept);
    }
  }

  lemma PayoffKept(w: World, step: Step)
    requires RepaySound(w) && Enabled(w, step)
    ensures Attached(Apply(w, step), Payoff) ==> Apply(w, step).episode.value.newLoan.Some?
  {
  }

  lemma StepKeepsRepay(w: World, step: Step)
    requires RepaySound(w) && Enabled(w, step)
    ensures RepaySound(Apply(w, step))
  {
    PayoffKept(w, step);
    if InFlight(Apply(w, step), Payoff) && !step.Begin? && !step.Transmit? {
      FlightWas(w, step, Payoff);
      FlightKept(w, step, Payoff);
    }
  }

  // The steps that leave the loans of an episode and its failures alone.
  predicate MoneyKept(w: World, step: Step) {
    !step.Reply? && !step.SaveResult? && !step.FinishState? && !step.FindLoan?
  }

  lemma FundedKept(w: World, step: Step)
    requires Enabled(w, step) && Funded(w) && !step.FinishState? && !(step.SaveResult? && Attached(w, Post))
    ensures Funded(Apply(w, step))
  {
  }

  lemma FundedOnce(w: World, step: Step)
    requires AcceptSound(w) && Enabled(w, step) && Funds(w, step)
    ensures !Funded(w) && Funded(Apply(w, step))
  {
  }

  lemma StepKeepsTook(w: World, step: Step)
    requires AcceptSound(w) && TookSound(w) && NoneTaken(w) && Enabled(w, step)
    ensures TookSound(Apply(w, step))
  {
    if Funds(w, step) {
      FundedOnce(w, step);
    } else if w.took == 1 && !step.FinishState? {
      FundedKept(w, step);
    }
  }

  lemma StepKeepsNoneTaken(w: World, step: Step)
    requires FlagsSound(w) && TookSound(w) && NoneTaken(w) && Enabled(w, step)
    ensures NoneTaken(Apply(w, step))
  {
  }

  lemma CountedPayoff(w: World, step: Step)
    requires MissionSound(w) && PayoffSound(w) && Enabled(w, step) && !MoneyKept(w, step)
    ensures PayoffSound(Apply(w, step))
  {
  }

  lemma AttemptsKept(w: World, step: Step)
    requires Enabled(w, step) && MoneyKept(w, step) && w.episode.Some?
    ensures NextEpisode(w, step).Some?
    ensures Renews(step) || NextEpisode(w, step).value.attempts == w.episode.value.attempts
    ensures Renews(step) || NextEpisode(w, step).value.newLoan == w.episode.value.newLoan
    ensures NextEpisode(w, step).value.phase.Repay? ==> w.episode.value.phase.Repay? || step.RetryPayoff?
  {
  }

  lemma OtherPayoff(w: World, step: Step)
    requires FlagsSound(w) && RepaySound(w) && PayoffSound(w) && Enabled(w, step) && MoneyKept(w, step)
    ensures PayoffSound(Apply(w, step))
  {
    if w.episode.Some? {
      AttemptsKept(w, step);
    }
  }

  lemma StepKeepsPayoff(w: World, step: Step)
    requires MissionSound(w) && PayoffSound(w) && Enabled(w, step)
    ensures PayoffSound(Apply(w, step))
  {
    if MoneyKept(w, step) {
      OtherPayoff(w, step);
    } else {
      CountedPayoff(w, step);
    }
  }

  /** A request is still being posted, or owed to the record, only if it was before. */
  lemma PostingKept(w: World, step: Step)
    requires Enabled(w, step) && !step.StagePost? && !step.Reply?
    ensures Posting(Apply(w, step)) ==> Posting(w)
  {
  }

  lemma SettledKept(w: World, step: Step)
    requires Enabled(w, step) && !step.Reply? && Definitive(Apply(w, step))
    ensures Definitive(w)
  {
  }

  lemma OwedKept(w: World, step: Step)
    requires Enabled(w, step) && !step.Reply?
    ensures Owed(Apply(w, step)) ==> Owed(w) && !step.SaveResult?
  {
    if Owed(Apply(w, step)) {
      SettledKept(w, step);
    }
  }

  lemma PreparedUnused(w: World, step: Step)
    requires DueSound(w) && PostsSound(w) && Enabled(w, step) && step.Prepare?
    ensures forall p <- w.posts :: p.loan == step.loan ==> p.key < w.listed[step.loan]
  {
    forall i | 0 <= i < |w.posts| && w.posts[i].loan == step.loan ensures w.posts[i].key < w.listed[step.loan] {
      assert OnRecord(w, w.posts[i]);
    }
  }

  lemma StepKeepsUnused(w: World, step: Step)
    requires FlagsSound(w) && KeyUnused(w) && Enabled(w, step)
    requires step.Prepare? ==> forall p <- w.posts :: p.loan == step.loan ==> p.key < w.listed[step.loan]
    ensures KeyUnused(Apply(w, step))
  {
    if !step.Prepare? && !step.StagePost? && !step.Reply? {
      PostingKept(w, step);
      if !step.Adopt? && NextEpisode(w, step).Some? {
        SubjectKept(w, step);
      }
    }
  }

  lemma StepKeepsUnrecorded(w: World, step: Step)
    requires DueSound(w) && FlagsSound(w) && KeyUnrecorded(w) && Enabled(w, step)
    ensures KeyUnrecorded(Apply(w, step))
  {
    if !step.StagePost? && !step.Reply? {
      PostingKept(w, step);
      OwedKept(w, step);
      if !Renews(step) && NextEpisode(w, step).Some? {
        SubjectKept(w, step);
      }
    }
  }

  /** A new request is for a later due date than every earlier one of its loan. */
  lemma StepKeepsAscending(w: World, step: Step)
    requires MissionSound(w) && KeyUnused(w) && Ascending(w.posts) && Enabled(w, step)
    ensures Ascending(Apply(w, step).posts)
  {
    if Posts(w, step) {
      var p := Posted(w.episode.value.loan, DueKey(w), w.dues);
      forall i | 0 <= i < |w.posts| && w.posts[i].loan == p.loan ensures w.posts[i].key < p.key {
        assert w.posts[i] in w.posts;
      }
    }
  }

  // --------------------------------------------------------- what is on record

  /** Of the loans requested before, the steps that write dates keep those that the
      borrower history still knows, and lose the others. */
  lemma RecordKept(w: World, step: Step, p: Posted)
    requires DueSound(w) && KeySound(w) && Enabled(w, step) && OnRecord(w, p)
    requires step.Adopt? || (step.SaveResult? && Definitive(w) && w.episode.value.loan in w.listed) ==> Known(w, p.loan)
    ensures OnRecord(Apply(w, step), p)
  {
  }

  lemma RecordLost(w: World, step: Step, p: Posted)
    requires Enabled(w, step) && !Known(w, p.loan)
    requires step.Adopt? || (step.SaveResult? && Definitive(w) && w.episode.value.loan in w.listed)
    ensures !OnRecord(Apply(w, step), p)
  {
  }

  lemma OwedRecorded(w: World, p: Posted)
    requires Owed(w) && Enabled(w, SaveResult) && w.episode.value.dueKey.Some? && KeySound(w) && KeyUnrecorded(w)
    requires p.loan == w.episode.value.loan && p.key == w.episode.value.dueKey.value
    ensures OnRecord(Apply(w, SaveResult), p) <==> Known(w, p.loan)
  {
  }

  lemma OwedStays(w: World, step: Step)
    requires FlagsSound(w) && Enabled(w, step) && Owed(w) && !step.SaveResult?
    ensures Owed(Apply(w, step)) && !step.Reply?
  {
  }

  lemma OwedNew(w: World, step: Step)
    requires Enabled(w, step) && step.Reply?
    ensures Owed(Apply(w, step)) <==> Posts(w, step)
    ensures !Owed(w)
  {
  }

  /** After a step, the requests that must be on record are all earlier ones, and the
      last one too once its answer is saved. */
  lemma OwedPosts(w: World, step: Step)
    requires Inv(w) && Enabled(w, step)
    ensures
      var v := Apply(w, step);
      && |w.posts| <= |v.posts|
      && (|v.posts| - if Owed(v) then 1 else 0) == |w.posts| - if Owed(w) && !step.SaveResult? then 1 else 0
  {
    if step.Reply? {
      OwedNew(w, step);
    } else {
      OwedKept(w, step);
      if Owed(w) && !step.SaveResult? {
        OwedStays(w, step);
      }
    }
  }

  lemma RecordedStep(w: World, step: Step, i: nat)
    requires Inv(w) && Enabled(w, step) && Guarded(w, step)
    requires i < |w.posts| - if Owed(w) && !step.SaveResult? then 1 else 0
    ensures OnRecord(Apply(w, step), w.posts[i])
  {
    if i < |w.posts| - if Owed(w) then 1 else 0 {
      assert OnRecord(w, w.posts[i]);
      assert PostsKnown(w) ==> Known(w, w.posts[i].loan);
      RecordKept(w, step, w.posts[i]);
    } else {
      OwedRecorded(w, w.posts[i]);
    }
  }

  lemma OwedLast(w: World, step: Step)
    requires PostsSound(w) && PostSound(w) && FlagsSound(w) && Enabled(w, step) && Owed(Apply(w, step))
    ensures
      var v := Apply(w, step);
      && v.posts != [] && v.episode.Some? && v.episode.value.dueKey.Some?
      && Last(v.posts).loan == v.episode.value.loan && Last(v.posts).key == v.episode.value.dueKey.value
  {
    if step.Reply? {
      OwedNew(w, step);
    } else {
      OwedKept(w, step);
      assert !Renews(step) && !Free(w);
      SubjectKept(w, step);
    }
  }

  lemma StepKeepsPosts(w: World, step: Step)
    requires Inv(w) && Enabled(w, step) && Guarded(w, step)
    ensures PostsSound(Apply(w, step))
  {
    var v := Apply(w, step);
    OwedPosts(w, step);
    if Owed(v) {
      OwedLast(w, step);
    }
    forall i | 0 <= i < |v.posts| - (if Owed(v) then 1 else 0) ensures OnRecord(v, v.posts[i]) {
      RecordedStep(w, step, i);
    }
  }

  lemma UnguardedLoses(w: World, step: Step)
    requires Inv(w) && Enabled(w, step) && !Guarded(w, step)
    ensures !PostsSound(Apply(w, step))
  {
    var v := Apply(w, step);
    OwedKept(w, step);
    assert !Owed(v) && v.posts == w.posts;
    if Owed(w) && !Known(w, w.episode.value.loan) {
      OwedRecorded(w, Last(w.posts));
      assert !OnRecord(v, v.posts[|v.posts| - 1]);
    } else {
      var i: nat :| i < |w.posts| && !Known(w, w.posts[i].loan);
      RecordLost(w, step, w.posts[i]);
      assert !OnRecord(v, v.posts[i]);
    }
  }

  /** Every definitive request stays on record across a step exactly when the borrower
      history is complete where the step writes dates. */
  lemma RecordedExactly(w: World, step: Step)
    requires Inv(w) && Enabled(w, step)
    ensures PostsSound(Apply(w, step)) <==> Guarded(w, step)
  {
    if Guarded(w, step) {
      StepKeepsPosts(w, step);
    } else {
      UnguardedLoses(w, step);
    }
  }

  lemma StepKeepsKeys(w: World, step: Step)
    requires Inv(w) && Enabled(w, step)
    ensures DueSound(Apply(w, step)) && KeySound(Apply(w, step))
    ensures KeyUnused(Apply(w, step)) && KeyUnrecorded(Apply(w, step)) && Ascending(Apply(w, step).posts)
  {
    StepKeepsDue(w, step);
    StepKeepsKey(w, step);
    if step.Prepare? {
      PreparedUnused(w, step);
    }
    StepKeepsUnused(w, step);
    StepKeepsUnrecorded(w, step);
    StepKeepsAscending(w, step);
  }

  lemma StepKeepsMission(w: World, step: Step)
    requires MissionSound(w) && Enabled(w, step)
    ensures MissionSound(Apply(w, step))
  {
    StepKeepsOwner(w, step);
    StepKeepsPrepared(w, step);
    StepKeepsPost(w, step);
    StepKeepsAccept(w, step);
    StepKeepsRepay(w, step);
  }

  lemma StepKeepsInv(w: World, step: Step)
    requires Inv(w) && Enabled(w, step) && Guarded(w, step)
    ensures Inv(Apply(w, step))
  {
    StepKeepsKeys(w, step);
    StepKeepsMission(w, step);
    StepKeepsPosts(w, step);
    StepKeepsTook(w, step);
    StepKeepsNoneTaken(w, step);
    StepKeepsPayoff(w, step);
  }

  // ----------------------------------------------------------------- theorems

  ghost predicate GuardedRun(steps: seq<Step>)
    requires Legal(steps)
    decreases |steps|
  {
    steps == [] || (GuardedRun(Front(steps)) && Guarded(After(Front(steps)), Last(steps)))
  }

  lemma {:induction false} RunKeepsInv(steps: seq<Step>)
    requires Legal(steps) && GuardedRun(steps)
    ensures Inv(After(steps))
    decreases |steps|
  {
    if steps != [] {
      RunKeepsInv(Front(steps));
      StepKeepsInv(After(Front(steps)), Last(steps));
    }
  }

  /** No two definitive requests are staged for the same instalment of a loan. */
  lemma OneRequestPerInstalment(steps: seq<Step>)
    requires Legal(steps) && GuardedRun(steps)
    ensures Ascending(After(steps).posts)
  {
    RunKeepsInv(steps);
  }

  /** Once the answer to an instalment's request is on record, the controller may
      never request for that instalment again. */
  lemma AskedOnceBarred(steps: seq<Step>, i: nat)
    requires Legal(steps) && GuardedRun(steps) && i < |After(steps).posts|
    requires Owed(After(steps)) ==> i < |After(steps).posts| - 1
    ensures
      var w := After(steps);
      var p := w.posts[i];
      p.loan in w.listed && w.listed[p.loan] == p.key ==> !MayRequest(w, p.loan)
  {
    RunKeepsInv(steps);
    assert OnRecord(After(steps), After(steps).posts[i]);
  }

  // The steps that may put a request on the wire.
  predicate Sends(step: Step) { step.Begin? || step.Transmit? || step.Replay? }

  lemma TookBars(w: World, step: Step)
    requires TookSound(w) && MissionSound(w) && w.took == 1 && Attached(w, Accept) && Sends(step)
    ensures !Enabled(w, step)
  {
  }

  /** An episode gains at most one replacement loan, and once it has one no approval
      can be sent or replayed. */
  lemma OneReplacementLoan(steps: seq<Step>, step: Step)
    requires Legal(steps) && GuardedRun(steps)
    ensures After(steps).took <= 1
    ensures After(steps).took == 1 && Attached(After(steps), Accept) && Sends(step) ==> !Enabled(After(steps), step)
  {
    RunKeepsInv(steps);
    if After(steps).took == 1 && Attached(After(steps), Accept) && Sends(step) {
      TookBars(After(steps), step);
    }
  }

  lemma FailuresBar(w: World, step: Step)
    requires PayoffSound(w) && MissionSound(w) && w.unconfirmed == PAYOFF_LIMIT
    requires step.RetryPayoff? || (step.StagePayoff? && Free(w)) || (Sends(step) && Attached(w, Payoff))
    ensures !Enabled(w, step)
  {
  }

  /** At most three payoffs fail unconfirmed; after the third none is staged, sent or
      replayed. */
  lemma ThreeFailedPayoffs(steps: seq<Step>, step: Step)
    requires Legal(steps) && GuardedRun(steps)
    ensures After(steps).unconfirmed <= PAYOFF_LIMIT
    ensures After(steps).unconfirmed == PAYOFF_LIMIT
            && (step.RetryPayoff? || step.StagePayoff? || (Sends(step) && Attached(After(steps), Payoff))) ==>
              !Enabled(After(steps), step)
  {
    RunKeepsInv(steps);
    var w := After(steps);
    if w.unconfirmed == PAYOFF_LIMIT
       && (step.RetryPayoff? || step.StagePayoff? || (Sends(step) && Attached(w, Payoff))) {
      if !step.StagePayoff? || Free(w) {
        FailuresBar(w, step);
      }
    }
  }

  /** Once a definitive answer is saved and its cooldown is over, a due date that is
      listed then may be requested again exactly when the request was not staged for
      it, even if it was transported at that very date. */
  lemma BarredExactly(w: World, later: World)
    requires Inv(w) && Owed(w) && Enabled(w, SaveResult) && w.episode.value.loan in w.listed
    requires later.dates == Apply(w, SaveResult).dates && later.retryAt <= later.now
    requires w.episode.value.loan in later.listed
    ensures MayRequest(later, w.episode.value.loan) <==> Last(w.posts).key != later.listed[w.episode.value.loan]
  {
  }

  // ------------------------------------------------- sent at the due date it is for

  /** The request attached was staged at `p` from the list captured at `c`. */
  predicate StagedFrom(steps: seq<Step>, c: nat, p: nat) {
    && c < p < |steps| && steps[c].Capture? && steps[p].StagePost?
    && (forall i :: c < i < p ==> !steps[i].Capture?)
    && forall i :: p < i < |steps| ==> !steps[i].StagePost?
  }

  predicate Moves(step: Step, loan: string) { step.Fall? && step.loan == loan }

  /** The server has not moved this loan's due date since the capture. */
  predicate Unmoved(steps: seq<Step>, c: nat, loan: string) {
    forall i {:trigger steps[i]} :: c < i < |steps| ==> !Moves(steps[i], loan)
  }

  /** Every such move has been followed by an event that the process received. */
  predicate Heard(steps: seq<Step>, c: nat, loan: string) {
    forall i {:trigger steps[i]} :: c < i < |steps| && Moves(steps[i], loan) ==>
      exists j :: i < j < |steps| && steps[j].Event?
  }

  lemma {:induction false} KeysSound(steps: seq<Step>)
    requires Legal(steps)
    ensures DueSound(After(steps)) && KeySound(After(steps)) && MissionSound(After(steps))
    decreases |steps|
  {
    if steps != [] {
      KeysSound(Front(steps));
      StepKeepsDue(After(Front(steps)), Last(steps));
      StepKeepsKey(After(Front(steps)), Last(steps));
      StepKeepsMission(After(Front(steps)), Last(steps));
    }
  }

  lemma UnmovedOn(steps: seq<Step>, c: nat, loan: string)
    requires c < |steps| - 1
    ensures Unmoved(steps, c, loan) <==> Unmoved(Front(steps), c, loan) && !Moves(Last(steps), loan)
  {
    assert Last(steps) == steps[|steps| - 1];
    forall i | c < i < |steps| - 1 ensures steps[i] == Front(steps)[i] {
    }
  }

  lemma DueRises(w: World, step: Step, loan: string)
    requires Enabled(w, step) && loan in w.due
    ensures
      var due := Apply(w, step).due;
      loan in due && if Moves(step, loan) then w.due[loan] < due[loan] else due[loan] == w.due[loan]
  {
  }

  lemma ShownDue(w: World, step: Step, loan: string)
    requires Enabled(w, step) && step.Capture? && loan in step.list
    ensures loan in Apply(w, step).due && Apply(w, step).due[loan] == step.list[loan]
  {
  }

  /** A due date only rises, so it still is what a capture showed exactly while it has
      not moved. */
  lemma {:induction false} DueSince(steps: seq<Step>, c: nat, loan: string)
    requires Legal(steps) && c < |steps| && steps[c].Capture? && loan in steps[c].list
    ensures loan in After(steps).due && steps[c].list[loan] <= After(steps).due[loan]
    ensures After(steps).due[loan] == steps[c].list[loan] <==> Unmoved(steps, c, loan)
    decreases |steps|
  {
    if c < |steps| - 1 {
      DueSince(Front(steps), c, loan);
      DueRises(After(Front(steps)), Last(steps), loan);
      UnmovedOn(steps, c, loan);
    } else {
      ShownDue(After(Front(steps)), Last(steps), loan);
    }
  }

  lemma StaysCurrent(w: World, step: Step)
    requires Enabled(w, step) && Apply(w, step).current
    ensures if step.Capture? then Apply(w, step).listed == step.list
            else w.current && !step.Event? && !step.Crash? && Apply(w, step).listed == w.listed
  {
  }

  /** While nothing was heard since it was captured, a list is the one last captured. */
  lemma {:induction false} CapturedAt(steps: seq<Step>) returns (c: nat)
    requires Legal(steps) && After(steps).current
    ensures c < |steps| && steps[c].Capture? && After(steps).listed == steps[c].list
    ensures forall i :: c < i < |steps| ==> !steps[i].Capture? && !steps[i].Event? && !steps[i].Crash?
    decreases |steps|
  {
    c := |steps| - 1;
    StaysCurrent(After(Front(steps)), Last(steps));
    if !Last(steps).Capture? {
      c := CapturedAt(Front(steps));
      assert forall i {:trigger steps[i]} :: 0 <= i < |steps| - 1 ==> steps[i] == Front(steps)[i];
    }
  }

  predicate ForListed(steps: seq<Step>, c: nat, e: Episode)
    requires c < |steps| && steps[c].Capture?
  {
    e.loan in steps[c].list && e.dueKey == Some(steps[c].list[e.loan])
  }

  /** The request was staged at `p` from the list captured at `c`, before any event. */
  predicate StagedFor(steps: seq<Step>, c: nat, p: nat, e: Episode) {
    StagedFrom(steps, c, p) && ForListed(steps, c, e) && forall i :: c < i < p ==> !steps[i].Event?
  }

  predicate Unfenced(steps: seq<Step>, p: nat) { exists i :: p < i < |steps| && steps[i].Event? }

  lemma StagesPrepared(w: World, step: Step)
    requires KeySound(w) && MissionSound(w) && Enabled(w, step) && step.StagePost?
    ensures w.current && w.episode.Some? && Apply(w, step).episode == w.episode
    ensures w.episode.value.loan in w.listed
            && w.episode.value.dueKey == Some(w.listed[w.episode.value.loan])
  {
  }

  lemma StaysStaged(w: World, step: Step)
    requires MissionSound(w) && Enabled(w, step) && Attached(Apply(w, step), Post) && !step.StagePost?
    ensures Attached(w, Post)
    ensures Apply(w, step).episode.value.loan == w.episode.value.loan
    ensures Apply(w, step).episode.value.dueKey == w.episode.value.dueKey
    ensures Apply(w, step).fenced ==> w.fenced && !step.Event?
  {
    PostKept(w, step);
    SubjectKept(w, step);
  }

  lemma StagedNow(steps: seq<Step>) returns (c: nat, p: nat)
    requires Legal(steps) && steps != [] && Last(steps).StagePost?
    requires KeySound(After(Front(steps))) && MissionSound(After(Front(steps)))
    ensures StagedFor(steps, c, p, After(steps).episode.value) && !Unfenced(steps, p)
  {
    StagesPrepared(After(Front(steps)), Last(steps));
    c := CapturedAt(Front(steps));
    p := |steps| - 1;
    assert forall i {:trigger steps[i]} :: 0 <= i < p ==> steps[i] == Front(steps)[i];
  }

  lemma StagedStill(steps: seq<Step>, c: nat, p: nat, e: Episode)
    requires steps != [] && !Last(steps).StagePost? && StagedFor(Front(steps), c, p, e)
    ensures StagedFor(steps, c, p, e)
    ensures Unfenced(steps, p) ==> Unfenced(Front(steps), p) || Last(steps).Event?
  {
    assert forall i {:trigger steps[i]} :: 0 <= i < |steps| - 1 ==> steps[i] == Front(steps)[i];
  }

  /** A request that is attached was staged once, from a capture with no event since,
      and while its fence stands no event has come at all. */
  lemma {:induction false} StagedBefore(steps: seq<Step>) returns (c: nat, p: nat)
    requires Legal(steps) && Attached(After(steps), Post)
    ensures StagedFor(steps, c, p, After(steps).episode.value)
    ensures After(steps).fenced ==> !Unfenced(steps, p)
    decreases |steps|
  {
    KeysSound(Front(steps));
    if Last(steps).StagePost? {
      c, p := StagedNow(steps);
    } else {
      var w := After(Front(steps));
      StaysStaged(w, Last(steps));
      c, p := StagedBefore(Front(steps));
      StagedStill(steps, c, p, w.episode.value);
    }
  }

  lemma StagedOnce(steps: seq<Step>, c: nat, p: nat, b: nat, q: nat)
    requires StagedFrom(steps, c, p) && StagedFrom(steps, b, q)
    ensures b == c && q == p
  {
  }

  /** The due date a request is sent at is the one it was staged for exactly when the
      loan has not moved since the capture. */
  lemma SentOnTimeExactly(steps: seq<Step>, c: nat, p: nat)
    requires Legal(steps) && Attached(After(steps), Post) && StagedFrom(steps, c, p)
    ensures
      var w := After(steps);
      var e := w.episode.value;
      && e.loan in w.due && e.dueKey.Some?
      && (e.dueKey.value == w.due[e.loan] <==> Unmoved(steps, c, e.loan))
  {
    var b, q := StagedBefore(steps);
    StagedOnce(steps, c, p, b, q);
    DueSince(steps, c, After(steps).episode.value.loan);
  }

  lemma NothingHeard(steps: seq<Step>, c: nat, loan: string)
    requires forall i :: c < i < |steps| ==> !steps[i].Event?
    ensures Heard(steps, c, loan) <==> Unmoved(steps, c, loan)
  {
  }

  /** The fences hold a first request back for a move they have heard of. One that they
      let pass is sent at the due date it was staged for exactly when every move of its
      loan since the capture has been heard. */
  lemma FirstSentOnTime(steps: seq<Step>, c: nat, p: nat)
    requires Legal(steps) && Enabled(After(steps), Transmit) && Attached(After(steps), Post) && StagedFrom(steps, c, p)
    ensures
      var w := After(steps);
      var e := w.episode.value;
      && e.loan in w.due && e.dueKey.Some?
      && (e.dueKey.value == w.due[e.loan] <==> Heard(steps, c, e.loan))
  {
    var b, q := StagedBefore(steps);
    StagedOnce(steps, c, p, b, q);
    SentOnTimeExactly(steps, c, p);
    NothingHeard(steps, c, After(steps).episode.value.loan);
  }

  // A transport, first or repeated, whose loan still has the due date it was staged for.
  predicate SentOnTime(w: World, step: Step) {
    (step.Transmit? || step.Replay?) && Attached(w, Post) && w.episode.value.dueKey.Some? ==>
      DueNow(w) <= {w.episode.value.dueKey.value}
  }

  ghost predicate TimelyRun(steps: seq<Step>)
    requires Legal(steps)
    decreases |steps|
  {
    steps == [] || (TimelyRun(Front(steps)) && SentOnTime(After(Front(steps)), Last(steps)))
  }

  predicate PostsTimely(w: World) { forall p <- w.posts :: p.dues <= {p.key} }

  predicate DuesTimely(w: World) {
    Posting(w) && w.episode.value.dueKey.Some? ==> w.dues <= {w.episode.value.dueKey.value}
  }

  lemma TimelyPosts(w: World, step: Step)
    requires PostSound(w) && PostsTimely(w) && DuesTimely(w) && Enabled(w, step)
    ensures PostsTimely(Apply(w, step))
  {
  }

  lemma TimelyDues(w: World, step: Step)
    requires Inv(w) && DuesTimely(w) && Enabled(w, step) && SentOnTime(w, step)
    ensures DuesTimely(Apply(w, step))
  {
    var v := Apply(w, step);
    if Posting(v) && !step.StagePost? {
      assert !step.Reply?;
      PostingKept(w, step);
      PostKept(w, step);
    }
  }

  lemma {:induction false} TimelyKeys(steps: seq<Step>)
    requires Legal(steps) && GuardedRun(steps) && TimelyRun(steps)
    ensures PostsTimely(After(steps)) && DuesTimely(After(steps))
    decreases |steps|
  {
    if steps != [] {
      TimelyKeys(Front(steps));
      RunKeepsInv(Front(steps));
      TimelyPosts(After(Front(steps)), Last(steps));
      TimelyDues(After(Front(steps)), Last(steps));
    }
  }

  // No due date of a loan is shared by two of its requests.
  predicate DistinctDues(posts: seq<Posted>) {
    forall i, j :: 0 <= i < j < |posts| && posts[i].loan == posts[j].loan ==> posts[i].dues !! posts[j].dues
  }

  /** When no request is transported after its due date has moved, no two requests for
      a loan are transported at the same due date. */
  lemma OneRequestPerDueDate(steps: seq<Step>)
    requires Legal(steps) && GuardedRun(steps) && TimelyRun(steps)
    ensures DistinctDues(After(steps).posts)
  {
    RunKeepsInv(steps);
    TimelyKeys(steps);
    var posts := After(steps).posts;
    assert forall i :: 0 <= i < |posts| ==> posts[i] in posts;
  }
}
