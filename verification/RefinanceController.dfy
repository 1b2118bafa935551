/** The refinance controller itself. Its methods write one durable record at a time
    and may stop between two writes; whatever they do is a legal run. */
module RefinanceController {
  import opened Options
  import opened Runs
  import opened Refinance
  import Upstream

  datatype Outcome = Unchanged | Changed | Staged | Died

  datatype OldLoan = Missing | Repaid | Inactive | Open

  datatype NewLoan = Unlisted | Ended | Mismatched | Disbursed

  /** What a pass observes: the loans that need refinancing, in list order, the old
      and the new loan, whether the recorded request is still open or may be
      adopted, and whether a quote is acceptable and the payoff funded. */
  datatype Facts = Facts(
    needed: seq<string>,
    previous: OldLoan,
    replacement: NewLoan,
    adoptable: Option<nat>,
    lapsed: bool,
    stillNeeded: bool,
    quoted: bool,
    arrears: bool,
    cashed: bool)

  class Controller {
    // The snapshot and the mission.
    var episode: Option<Episode>
    var dates: map<string, int>
    var retryAt: int
    var mission: Option<Option<Action>>
    var journaledAt: int
    // The captured loans, the fences and the clock.
    var listed: map<string, int>
    var current: bool
    var fenced: bool
    var begun: bool
    var now: int
    // The loans that funded our requests.
    var funded: map<nat, nat>
    // The same with the server's side and the history, and how it came about.
    ghost var w: World
    ghost var trace: seq<Step>
    ghost var worlds: seq<World>

    ghost predicate Agrees(v: World)
      reads this
    {
      && v.episode == episode && v.dates == dates && v.retryAt == retryAt
      && v.mission == mission && v.journaledAt == journaledAt && v.listed == listed && v.current == current
      && v.fenced == fenced && v.begun == begun && v.now == now && v.funded == funded
    }

    ghost predicate Valid()
      reads this
    {
      Ran(trace, worlds, w) && Agrees(w)
    }

    constructor ()
      ensures Valid() && trace == []
    {
      episode, dates, retryAt, mission, journaledAt, listed := None, map[], 0, None, 0, map[];
      current, fenced, begun, now, funded := false, false, false, 0, map[];
      w, trace, worlds := Start, [], [Start];
    }

    /** Whatever the controller has done so far is a legal run. */
    lemma IsRun()
      requires Valid()
      ensures Legal(trace) && After(trace) == w
    {
      RanLegal(trace, worlds, w);
    }

    ghost method Note(step: Step)
      requires Ran(trace, worlds, w) && Enabled(w, step) && Agrees(Apply(w, step))
      modifies this`w, this`trace, this`worlds
      ensures Valid() && w == Apply(old(w), step) && trace == old(trace) + [step]
    {
      RunsOn(trace, worlds, w, step);
      w := Apply(w, step);
      trace, worlds := trace + [step], worlds + [w];
    }

    // What the process knew dies with it.
    method Forget()
      modifies this`listed, this`current, this`fenced, this`begun
      ensures listed == map[] && !current && !fenced && !begun
    {
      listed, current, fenced, begun := map[], false, false, false;
    }

    method Die()
      requires Valid()
      modifies this
      ensures Valid() && trace == old(trace) + [Crash] && w == Apply(old(w), Crash)
    {
      Forget();
      Note(Crash);
    }

    // ------------------------------------------------------------- surroundings

    /** A fresh borrower history. */
    method CaptureLoans(list: map<string, int>)
      requires Valid() && Enabled(w, Capture(list))
      modifies this
      ensures Valid() && trace == old(trace) + [Capture(list)] && w == Apply(old(w), Capture(list))
    {
      listed, current := list, true;
      Note(Capture(list));
    }

    /** An instalment falls, or a loan ends, on the server. */
    ghost method Befall(change: Step)
      requires Valid() && (change.Fall? || change.Close?) && Enabled(w, change)
      modifies this`w, this`trace, this`worlds
      ensures Valid() && trace == old(trace) + [change] && w == Apply(old(w), change)
    {
      Note(change);
    }

    /** A financial event arrives and invalidates every fence. */
    method HandleEvent()
      requires Valid()
      modifies this
      ensures Valid() && trace == old(trace) + [Event] && w == Apply(old(w), Event)
    {
      current, fenced := false, false;
      Note(Event);
    }

    method Elapse(elapsed: nat)
      requires Valid()
      modifies this
      ensures Valid() && trace == old(trace) + [Tick(elapsed)] && w == Apply(old(w), Tick(elapsed))
    {
      now := now + elapsed;
      Note(Tick(elapsed));
    }

    method Hear(answer: Answer)
      requires Valid() && Enabled(w, Reply(answer))
      modifies this
      ensures Valid() && trace == old(trace) + [Reply(answer)] && w == Apply(old(w), Reply(answer))
    {
      var action := mission.value.value;
      if action.stage.Accept? && answer.Granted? && episode.value.request.Some? {
        HearFunding(answer.id);
        return;
      }
      HearPlain(answer);
    }

    method HearPlain(answer: Answer)
      requires Valid() && Enabled(w, Reply(answer)) && !Funds(w, Reply(answer))
      modifies this
      ensures Valid() && trace == old(trace) + [Reply(answer)] && w == Apply(old(w), Reply(answer))
    {
      mission := Some(Some(mission.value.value.(status := Answered(answer))));
      Note(Reply(answer));
    }

    method HearFunding(id: nat)
      requires Valid() && Enabled(w, Reply(Granted(id))) && Funds(w, Reply(Granted(id)))
      modifies this
      ensures Valid() && trace == old(trace) + [Reply(Granted(id))] && w == Apply(old(w), Reply(Granted(id)))
    {
      funded := funded[episode.value.request.value := id];
      mission := Some(Some(mission.value.value.(status := Answered(Granted(id)))));
      Note(Reply(Granted(id)));
    }

    // ----------------------------------------------------------------- dispatch

    /** The fences, and then the stage's own preflight. */
    method Preflight() returns (clear: bool)
      requires Valid() && Busy(w)
      ensures clear == Cleared(w)
    {
      if !fenced {
        return false;
      }
      match mission.value.value.stage
      case Post =>
        var allowed := MayRequestLoan(episode.value.loan);
        clear := allowed && episode.value.newLoan.None? && episode.value.request.None?;
      case Accept =>
        clear := episode.value.newLoan.None? && episode.value.request.Some? && episode.value.request.value !in funded;
      case Payoff => clear := episode.value.newLoan.Some? && episode.value.phase.Repay?;
    }

    method Journal()
      requires Valid() && Enabled(w, Begin)
      modifies this
      ensures Valid() && trace == old(trace) + [Begin] && w == Apply(old(w), Begin)
    {
      mission, journaledAt, begun := Some(Some(mission.value.value.(status := Journaled))), now, true;
      Note(Begin);
    }

    method Send(step: Step)
      requires Valid() && (step.Transmit? || step.Replay?) && Enabled(w, step)
      modifies this
      ensures Valid() && trace == old(trace) + [step] && w == Apply(old(w), step)
    {
      mission, begun := Some(Some(mission.value.value.(status := Sent))), false;
      Note(step);
    }

    method Retire()
      requires Valid() && Enabled(w, Unsend)
      modifies this
      ensures Valid() && trace == old(trace) + [Unsend] && w == Apply(old(w), Unsend)
    {
      mission, begun := Some(None), false;
      Note(Unsend);
    }

    /** The first send: journaled and transported past the fences and the preflight, or
        retired unsent. */
    method SendFirst(die: bool) returns (outcome: Outcome)
      requires Valid() && Busy(w) && mission.value.value.status.Unsent?
      modifies this
      ensures Valid()
      ensures trace == old(trace) + if !old(Cleared(w)) then [Unsend] else [Begin] + [if die then Crash else Transmit]
    {
      var clear := Preflight();
      if !clear {
        Retire();
        return Changed;
      }
      Journal();
      if die {
        Die();
        return Died;
      }
      Send(Transmit);
      outcome := Changed;
    }

    /** A row found in the journal is replayed as it is, with no preflight. */
    method ReplayRow() returns (outcome: Outcome)
      requires Valid() && Busy(w) && !w.begun && !mission.value.value.status.Unsent?
      requires !mission.value.value.status.Answered?
      modifies this
      ensures Valid() && trace == old(trace) + if old(Enabled(w, Replay)) then [Replay] else []
    {
      if journaledAt + Upstream.REPLAY_WINDOW - Upstream.CUTOFF <= now {
        return Unchanged;
      }
      Send(Replay);
      return Changed;
    }

    // --------------------------------------------------------------- the records

    /** The dates of the listed loans, with this loan's due date. */
    method RecordLoanRefinanceDue(loan: string, key: int) returns (recorded: map<string, int>)
      ensures recorded == RecordDue(dates, listed, loan, key)
    {
      recorded := dates;
      var rest := dates.Keys;
      while rest != {}
        invariant rest <= dates.Keys && recorded.Keys <= dates.Keys
        invariant forall id <- dates :: id in recorded <==> id in rest || id in listed
        invariant forall id <- recorded :: recorded[id] == dates[id]
        decreases rest
      {
        var id :| id in rest;
        rest := rest - {id};
        if id !in listed {
          recorded := recorded - {id};
        }
      }
      recorded := recorded[loan := key];
    }

    /** Persists the due date the request is for, and only then stages it. A financial
        event since the capture leaves the record without its request. */
    method StageRequest(loan: string, die: bool) returns (outcome: Outcome)
      requires Valid() && Enabled(w, Prepare(loan))
      modifies this
      ensures Valid()
      ensures trace == old(trace) + [Prepare(loan)] + if die then [Crash] else if old(current) then [StagePost] else []
      ensures episode == Some(Episode(loan, None, None, Request, 0, Some(old(listed)[loan])))
      ensures mission == if outcome.Staged? then Some(Some(Action(Post, Unsent))) else old(mission)
    {
      PersistRequest(loan);
      if die {
        Die();
        return Died;
      }
      if !current {
        return Changed;
      }
      StagePersisted();
      outcome := Staged;
    }

    method StagePersisted()
      requires Valid() && Enabled(w, StagePost)
      modifies this
      ensures Valid() && trace == old(trace) + [StagePost] && w == Apply(old(w), StagePost)
    {
      mission, fenced := Some(Some(Action(Post, Unsent))), true;
      Note(StagePost);
    }

    method PersistRequest(loan: string)
      requires Valid() && Enabled(w, Prepare(loan))
      modifies this
      ensures Valid() && trace == old(trace) + [Prepare(loan)] && w == Apply(old(w), Prepare(loan))
      ensures current ==> Enabled(w, StagePost)
    {
      episode := Some(Episode(loan, None, None, Request, 0, Some(listed[loan])));
      Note(Prepare(loan));
    }

    /** Takes an open request of our own as this episode's. */
    method AdoptRequest(loan: string, id: nat)
      requires Valid() && Enabled(w, Adopt(loan, id))
      modifies this
      ensures Valid() && trace == old(trace) + [Adopt(loan, id)] && w == Apply(old(w), Adopt(loan, id))
    {
      var key := if episode.None? || episode.value.phase.Backoff? then None else episode.value.dueKey;
      dates := RecordLoanRefinanceDue(loan, if key.Some? then key.value else listed[loan]);
      episode := Some(Episode(loan, Some(id), None, Wait, 0, key));
      Note(Adopt(loan, id));
    }

    /** Stages an approval or a payoff, unless a financial event came since the capture. */
    method StageAction(stage: Stage) returns (staged: bool)
      requires Valid() && !stage.Post? && Free(w) && !w.finishing
               && (if stage.Accept? then Approvable(w) else Payable(w))
      modifies this
      ensures Valid() && staged == old(current)
      ensures !staged ==> trace == old(trace) && w == old(w)
      ensures staged ==> trace == old(trace) + [if stage.Accept? then StageAccept else StagePayoff]
      ensures staged ==> old(Enabled(w, if stage.Accept? then StageAccept else StagePayoff))
                         && w == Apply(old(w), if stage.Accept? then StageAccept else StagePayoff)
    {
      if !current {
        return false;
      }
      mission, fenced := Some(Some(Action(stage, Unsent))), true;
      Note(if stage.Accept? then StageAccept else StagePayoff);
      return true;
    }

    method DeleteMission()
      requires Valid() && Enabled(w, FinishMission)
      modifies this
      ensures Valid() && trace == old(trace) + [FinishMission] && w == Apply(old(w), FinishMission)
    {
      mission := None;
      Note(FinishMission);
    }

    method DeleteRecord()
      requires Valid() && Enabled(w, FinishState)
      modifies this
      ensures Valid() && trace == old(trace) + [FinishState] && w == Apply(old(w), FinishState)
    {
      episode, retryAt := None, if episode.value.request.Some? then now + RETRY else retryAt;
      Note(FinishState);
    }

    method LetGo()
      requires Valid() && Enabled(w, SaveMission)
      modifies this
      ensures Valid() && trace == old(trace) + [SaveMission] && w == Apply(old(w), SaveMission)
    {
      mission := Some(None);
      Note(SaveMission);
    }

    method SetPhase(phase: Phase)
      requires Valid() && ((phase.Approve? && Enabled(w, MarkApproved)) || (phase.Repay? && Enabled(w, RetryPayoff)))
      modifies this
      ensures Valid() && trace == old(trace) + [if phase.Approve? then MarkApproved else RetryPayoff]
      ensures w == Apply(old(w), if phase.Approve? then MarkApproved else RetryPayoff)
    {
      episode := Some(episode.value.(phase := phase));
      Note(if phase.Approve? then MarkApproved else RetryPayoff);
    }

    /** An unfunded request lapsed: never again for its instalment, nor within a day. */
    method DeferLoanRefinance()
      requires Valid() && Enabled(w, Lapse)
      modifies this
      ensures Valid() && trace == old(trace) + [Lapse] && w == Apply(old(w), Lapse)
    {
      retryAt := now + RETRY;
      episode := Some(episode.value.(request := None, phase := Backoff));
      Note(Lapse);
    }

    /** Retires the controller: the mission first, then its record. */
    method FinishLoanRefinance(die: bool) returns (outcome: Outcome)
      requires Valid() && Enabled(w, FinishMission)
      modifies this
      ensures Valid() && trace == old(trace) + [FinishMission] + [if die then Crash else FinishState]
      ensures mission.None? && dates == old(dates)
      ensures outcome == (if die then Died else Changed) && episode == if die then old(episode) else None
      ensures !die && old(episode).value.request.Some? ==> retryAt == now + RETRY
    {
      DeleteMission();
      if die {
        Die();
        return Died;
      }
      DeleteRecord();
      outcome := Changed;
    }

    /** The record half of a result: the request's due date, the new loan or the
        attempt is saved before the mission lets go of its action. */
    method LoanRefinanceResult()
      requires Valid() && Enabled(w, SaveResult)
      modifies this
      ensures Valid() && trace == old(trace) + [SaveResult] && w == Apply(old(w), SaveResult)
      ensures w.saved && mission == old(mission) && episode.Some?
    {
      var answer := mission.value.value.status.answer;
      match mission.value.value.stage
      case Post => RequestResult(answer);
      case Accept => AcceptResult(answer);
      case Payoff => PayoffResult(answer);
    }

    method RequestResult(answer: Answer)
      requires Valid() && Enabled(w, SaveResult) && Settled(w, Post) && answer == Reached(w)
      modifies this
      ensures Valid() && trace == old(trace) + [SaveResult] && w == Apply(old(w), SaveResult)
      ensures w.saved && mission == old(mission) && episode.Some?
    {
      var e := episode.value;
      if answer.Denied? {
        Note(SaveResult);
        return;
      }
      var recorded := NotedDates();
      if answer.Granted? {
        SaveRequest(recorded, e.(request := Some(answer.id), phase := Wait), retryAt);
      } else {
        SaveRequest(recorded, e.(request := None, phase := Backoff), now + RETRY);
      }
    }

    method NotedDates() returns (recorded: map<string, int>)
      requires Valid() && episode.Some?
      ensures recorded == Noted(w)
    {
      var e := episode.value;
      if e.loan !in listed {
        return dates;
      }
      recorded := RecordLoanRefinanceDue(e.loan, if e.dueKey.Some? then e.dueKey.value else listed[e.loan]);
    }

    method SaveRequest(recorded: map<string, int>, e: Episode, until: int)
      requires Valid() && Enabled(w, SaveResult) && Some(e) == NextEpisode(w, SaveResult)
      requires recorded == NextDates(w, SaveResult) && until == NextRetryAt(w, SaveResult)
      modifies this
      ensures Valid() && trace == old(trace) + [SaveResult] && w == Apply(old(w), SaveResult)
      ensures mission == old(mission) && episode == Some(e)
    {
      SaveState(recorded, e, until);
      Note(SaveResult);
    }

    // The record, its due dates and its cooldown are saved together.
    method SaveState(recorded: map<string, int>, e: Episode, until: int)
      modifies this`dates, this`episode, this`retryAt
      ensures dates == recorded && episode == Some(e) && retryAt == until
    {
      dates, episode, retryAt := recorded, Some(e), until;
    }

    method AcceptResult(answer: Answer)
      requires Valid() && Enabled(w, SaveResult) && Settled(w, Accept) && answer == Reached(w)
      modifies this
      ensures Valid() && trace == old(trace) + [SaveResult] && w == Apply(old(w), SaveResult)
      ensures w.saved && mission == old(mission) && episode.Some?
    {
      var e := episode.value;
      if answer.Granted? {
        episode := Some(e.(newLoan := Some(answer.id), phase := Repay));
      } else if e.newLoan.None? {
        episode := Some(e.(phase := Wait));
      }
      Note(SaveResult);
    }

    method PayoffResult(answer: Answer)
      requires Valid() && Enabled(w, SaveResult) && Settled(w, Payoff) && answer == Reached(w)
      modifies this
      ensures Valid() && trace == old(trace) + [SaveResult] && w == Apply(old(w), SaveResult)
      ensures w.saved && mission == old(mission) && episode.Some?
    {
      var e := episode.value;
      if !answer.Denied? {
        episode := Some(e.(phase := RepayWait, attempts := if answer.Confirmed? then e.attempts else e.attempts + 1));
      }
      Note(SaveResult);
    }

    /** Consumes a definitive answer. A process that dies in between finds the same
        answer again and repeats the first write. */
    method ConsumeResult(matches: bool, die: bool) returns (outcome: Outcome)
      requires Valid() && Enabled(w, SaveResult)
      modifies this
      ensures Valid()
      ensures
        var kept := old(mission.value.value.stage.Accept? && mission.value.value.status.answer.Granted?) ==> matches;
        trace == old(trace) + [if kept then SaveResult else FinishMission]
                 + [if die then Crash else if kept then SaveMission else FinishState]
    {
      if mission.value.value.stage.Accept? && mission.value.value.status.answer.Granted? && !matches {
        outcome := FinishLoanRefinance(die);
        return;
      }
      outcome := SaveAndLetGo(die);
    }

    method SaveAndLetGo(die: bool) returns (outcome: Outcome)
      requires Valid() && Enabled(w, SaveResult)
      modifies this
      ensures Valid() && trace == old(trace) + [SaveResult] + [if die then Crash else SaveMission]
    {
      LoanRefinanceResult();
      if die {
        Die();
        return Died;
      }
      LetGo();
      outcome := Changed;
    }

    method MayRequestLoan(loan: string) returns (allowed: bool)
      requires Valid()
      ensures allowed == MayRequest(w, loan)
    {
      allowed := loan in listed && (loan in dates ==> dates[loan] != listed[loan]) && retryAt <= now;
    }

    /** The first listed loan that needs a request and may have one. */
    method ChooseLoan(needed: seq<string>) returns (chosen: Option<string>)
      requires Valid()
      ensures chosen.Some? ==> chosen.value in needed && MayRequest(w, chosen.value)
      ensures chosen.None? ==> forall loan <- needed :: !MayRequest(w, loan)
    {
      for i := 0 to |needed|
        invariant forall k :: 0 <= k < i ==> !MayRequest(w, needed[k])
      {
        var allowed := MayRequestLoan(needed[i]);
        if allowed {
          return Some(needed[i]);
        }
      }
      chosen := None;
    }

    /** A replacement loan is repaid into the old one, retried, or left alone. */
    method DriveReplacement(facts: Facts, die: bool) returns (outcome: Outcome)
      requires Valid() && Free(w) && !w.finishing && episode.Some? && episode.value.newLoan.Some?
      modifies this
      ensures Valid() && old(trace) <= trace
      ensures trace != old(trace) && trace[|old(trace)|].StagePayoff? ==> facts.replacement.Disbursed? && !facts.arrears
      ensures facts.replacement.Disbursed? && old(episode).value.phase.RepayWait?
              && old(episode).value.attempts >= PAYOFF_LIMIT
              ==> mission.None?
    {
      if facts.replacement.Unlisted? {
        return Unchanged;
      }
      if facts.replacement.Ended? || facts.replacement.Mismatched?
         || (episode.value.phase.RepayWait? && episode.value.attempts >= PAYOFF_LIMIT) {
        outcome := FinishLoanRefinance(die);
        return;
      }
      if episode.value.phase.RepayWait? {
        SetPhase(Repay);
        return Changed;
      }
      if facts.arrears || !facts.cashed || !episode.value.phase.Repay? {
        return Unchanged;
      }
      var staged := StageAction(Payoff);
      outcome := if staged then Changed else Unchanged;
    }

    /** An open request is approved at an acceptable quote; a lapsed one waits out
        its instalment. */
    method DriveRequest(facts: Facts, die: bool) returns (outcome: Outcome)
      requires Valid() && Free(w) && !w.finishing && Approvable(w)
      modifies this
      ensures Valid() && old(trace) <= trace
      ensures trace != old(trace) && trace[|old(trace)|].StageAccept? ==>
                facts.quoted && facts.stillNeeded && !facts.lapsed && !facts.arrears
    {
      if facts.lapsed {
        if !facts.stillNeeded {
          outcome := FinishLoanRefinance(die);
          return;
        }
        DeferLoanRefinance();
        return Changed;
      }
      if !facts.stillNeeded || facts.arrears || !facts.quoted {
        return Unchanged;
      }
      var staged := StageAction(Accept);
      if !staged {
        return Unchanged;
      }
      if die {
        Die();
        return Died;
      }
      SetPhase(Approve);
      outcome := Changed;
    }

    /** With no request on record: adopt an open one or post a new one. */
    method DriveUnrequested(loan: string, facts: Facts, die: bool) returns (outcome: Outcome)
      requires Valid() && Free(w) && !w.finishing
      requires episode.Some? ==> episode.value.loan == loan && Unrequested(w)
      requires facts.adoptable.Some? ==> facts.adoptable.value in w.requests && facts.adoptable.value !in w.funded
      modifies this
      ensures Valid() && old(trace) <= trace
      ensures trace != old(trace) && trace[|old(trace)|].Prepare? ==>
                facts.adoptable.None? && !facts.arrears && facts.stillNeeded
    {
      if episode.Some? && episode.value.phase.Backoff? {
        var due := MayRequestLoan(loan);
        if !due {
          return Unchanged;
        }
      }
      if facts.stillNeeded {
        outcome := PostOrAdopt(loan, facts, die);
        return;
      }
      outcome := StopUnneeded(die);
    }

    method StopUnneeded(die: bool) returns (outcome: Outcome)
      requires Valid() && Free(w) && !w.finishing
      modifies this
      ensures Valid() && old(trace) <= trace
      ensures trace == old(trace) || trace[|old(trace)|].FinishMission?
    {
      if episode.None? {
        return Unchanged;
      }
      outcome := FinishLoanRefinance(die);
    }

    method PostOrAdopt(loan: string, facts: Facts, die: bool) returns (outcome: Outcome)
      requires Valid() && Free(w) && !w.finishing
      requires episode.Some? ==> episode.value.loan == loan && Unrequested(w)
      requires episode.Some? && episode.value.phase.Backoff? ==> MayRequest(w, loan)
      requires facts.adoptable.Some? ==> facts.adoptable.value in w.requests && facts.adoptable.value !in w.funded
      modifies this
      ensures Valid() && old(trace) <= trace
      ensures trace != old(trace) && trace[|old(trace)|].Prepare? ==> facts.adoptable.None? && !facts.arrears
    {
      var allowed := MayRequestLoan(loan);
      if facts.adoptable.Some? && loan in listed && (episode.Some? || allowed) {
        AdoptRequest(loan, facts.adoptable.value);
        return Changed;
      }
      if !allowed || facts.adoptable.Some? || facts.arrears {
        return Unchanged;
      }
      outcome := StageRequest(loan, die);
    }

    /** One pass. Nothing happens while an action is unresolved. */
    method DriveLoanRefinance(facts: Facts, die: bool) returns (outcome: Outcome)
      requires Valid() && !w.finishing
      requires facts.adoptable.Some? ==> facts.adoptable.value in w.requests && facts.adoptable.value !in w.funded
      modifies this
      ensures Valid() && old(trace) <= trace
      ensures !Free(old(w)) ==> outcome.Unchanged? && trace == old(trace)
      ensures Free(old(w)) && old(episode).Some? && !facts.previous.Open? ==> mission.None?
    {
      if mission.Some? && mission.value.Some? {
        return Unchanged;
      }
      if episode.None? {
        outcome := DriveIdle(facts, die);
      } else if !facts.previous.Open? {
        outcome := FinishLoanRefinance(die);
      } else {
        outcome := DriveOpen(facts, die);
      }
    }

    method DriveIdle(facts: Facts, die: bool) returns (outcome: Outcome)
      requires Valid() && Free(w) && !w.finishing && episode.None?
      requires facts.adoptable.Some? ==> facts.adoptable.value in w.requests && facts.adoptable.value !in w.funded
      modifies this
      ensures Valid() && old(trace) <= trace
    {
      if mission.Some? {
        mission := None;
        Note(DropMission);
        return Changed;
      }
      var chosen := ChooseLoan(facts.needed);
      if chosen.None? {
        return Unchanged;
      }
      outcome := DriveUnrequested(chosen.value, facts.(stillNeeded := true), die);
    }

    method DriveOpen(facts: Facts, die: bool) returns (outcome: Outcome)
      requires Valid() && Free(w) && !w.finishing && episode.Some?
      requires facts.adoptable.Some? ==> facts.adoptable.value in w.requests && facts.adoptable.value !in w.funded
      modifies this
      ensures Valid() && old(trace) <= trace
    {
      if episode.value.newLoan.Some? {
        outcome := DriveReplacement(facts, die);
      } else if episode.value.request.None? {
        outcome := DriveUnrequested(episode.value.loan, facts, die);
      } else {
        outcome := DriveRecorded(facts, die);
      }
    }

    // The server's record tells whether the request was funded.
    method DriveRecorded(facts: Facts, die: bool) returns (outcome: Outcome)
      requires Valid() && Free(w) && !w.finishing && episode.Some?
      requires episode.value.newLoan.None? && episode.value.request.Some?
      modifies this
      ensures Valid() && old(trace) <= trace
    {
      if episode.value.request.value in funded {
        if facts.replacement.Unlisted? {
          return Unchanged;
        }
        episode := Some(episode.value.(newLoan := Some(funded[episode.value.request.value]), phase := Repay));
        Note(FindLoan);
        outcome := DriveReplacement(facts, die);
      } else {
        outcome := DriveRequest(facts, die);
      }
    }
  }
}
