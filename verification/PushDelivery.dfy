/** How long delivery can take: accepted results a job, rounds to a final state, and batches as runs. */
module PushDelivery {
  import opened Common
  import opened PushTable
  import opened PushRules
  import opened PushOutcomes
  import opened PushService
  import opened PushSystem

  // ------------------------------------------------------- accepted results

  /** The numbers of a job's attempts whose results were accepted. */
  function RecordedNumbers(s: System, j: JobId, receipt: bool): set<nat> {
    set i | 0 <= i < |s.log| && s.log[i].Recorded? && s.log[i].attempt.id == j && s.log[i].attempt.receipt == receipt
      :: s.log[i].attempt.number
  }

  function MaxAttempts(receipt: bool): nat {
    if receipt then MAX_PUSH_RECEIPT_ATTEMPTS else MAX_PUSH_SEND_ATTEMPTS
  }

  /** The job may still get a result of this kind. */
  predicate Trying(s: System, j: JobId, receipt: bool) {
    j in s.db.jobs
    && if receipt then OpenStatus(s.db.jobs[j].status)
       else s.db.jobs[j].status == Queued || s.db.jobs[j].status == Sending
  }

  /** All recorded attempts asked for another one, but for at most one, after which nobody tries. */
  ghost predicate Bounded(s: System, j: JobId, receipt: bool) {
    var numbers := RecordedNumbers(s, j, receipt);
    && (exists last :: AllBelow(numbers - {last}, MaxAttempts(receipt)))
    && (Trying(s, j, receipt) ==> AllBelow(numbers, MaxAttempts(receipt)))
  }

  ghost predicate AllBelow(numbers: set<nat>, limit: nat) { forall n :: n in numbers ==> 1 <= n < limit }

  lemma RecordedGrows(s: System, e: Event, j: JobId, receipt: bool)
    ensures
      var t := Step(s, e);
      var before, after := RecordedNumbers(s, j, receipt), RecordedNumbers(t, j, receipt);
      if t.log == s.log || t.log[|s.log|].Handed? || t.log[|s.log|].attempt.id != j
         || t.log[|s.log|].attempt.receipt != receipt
      then after == before
      else after == before + {t.log[|s.log|].attempt.number}
  {
    var t := Step(s, e);
    var before, after := RecordedNumbers(s, j, receipt), RecordedNumbers(t, j, receipt);
    if t.log != s.log {
      assert forall i :: 0 <= i < |s.log| ==> t.log[i] == s.log[i];
      forall n | n in before ensures n in after {
        var i :| 0 <= i < |s.log| && s.log[i].Recorded? && s.log[i].attempt == Attempt(j, receipt, n);
        assert t.log[i] == s.log[i];
      }
    }
  }

  lemma FinishOrigin(s: System, e: Event, j: JobId, receipt: bool)
    requires Inv(s) && Trying(Step(s, e), j, receipt) && (e.FinishSend? || e.FinishReceipt?)
    ensures Trying(s, j, receipt)
  {
    FinishLeaves(s, e);
    assert j in s.db.jobs;
    if Fence(s, e.attempt) && Step(s, e) != s && j == e.attempt.id {
      FinishedStatus(s, e);
    }
  }

  /** Nobody starts trying a job that was issued and is not being tried. */
  lemma TryingOrigin(s: System, e: Event, j: JobId, receipt: bool)
    requires Inv(s) && j.notification in s.issuedNotifications && Trying(Step(s, e), j, receipt)
    ensures Trying(s, j, receipt)
  {
    if e.Register? || e.Unregister? || e.ScheduleDeletion? {
      TokenEventIsSafe(s, e);
    } else if e.FinishSend? || e.FinishReceipt? {
      FinishOrigin(s, e, j, receipt);
    }
  }

  /** A result that leaves the job being tried answers an attempt below the limit. */
  lemma SendRetryStaysBelow(s: System, e: Event, a: Attempt)
    requires Inv(s) && a in s.handouts && Fence(s, a) && Finishes(e, a) && !a.receipt
    ensures Trying(s, a.id, false)
    ensures Trying(Step(s, e), a.id, false) ==> 1 <= a.number < MAX_PUSH_SEND_ATTEMPTS
  {
    assert HandoutOk(s, a, s.handouts[a]);
    SendResultOnJob(s, a, e.answer);
  }

  lemma ReceiptRetryStaysBelow(s: System, e: Event, a: Attempt)
    requires Inv(s) && a in s.handouts && Fence(s, a) && Finishes(e, a) && a.receipt
    ensures Trying(s, a.id, true)
    ensures Trying(Step(s, e), a.id, true) ==> 1 <= a.number < MAX_PUSH_RECEIPT_ATTEMPTS
  {
    assert HandoutOk(s, a, s.handouts[a]) && Paced(s.db.jobs[a.id]);
    ReceiptResultOnJob(s, a, e.answer);
  }

  lemma RetriesStayBelow(s: System, e: Event, a: Attempt)
    requires Inv(s) && a in s.handouts && Fence(s, a) && Finishes(e, a)
    ensures Trying(s, a.id, a.receipt)
    ensures Trying(Step(s, e), a.id, a.receipt) ==> 1 <= a.number < MaxAttempts(a.receipt)
  {
    if a.receipt {
      ReceiptRetryStaysBelow(s, e, a);
    } else {
      SendRetryStaysBelow(s, e, a);
    }
  }

  lemma UnissuedHasNone(s: System, j: JobId, receipt: bool)
    requires Inv(s) && LogOk(s) && j.notification !in s.issuedNotifications
    ensures RecordedNumbers(s, j, receipt) == {}
  {
    forall i | 0 <= i < |s.log|
      ensures s.log[i].attempt.id != j
    {
      assert s.log[i] in s.log;
      assert HandoutOk(s, s.log[i].attempt, s.handouts[s.log[i].attempt]);
    }
  }

  lemma UnmovedStaysBounded(s: System, e: Event, j: JobId, receipt: bool)
    requires Inv(s) && LogOk(s) && Bounded(s, j, receipt)
    requires RecordedNumbers(Step(s, e), j, receipt) == RecordedNumbers(s, j, receipt)
    ensures Bounded(Step(s, e), j, receipt)
  {
    if j.notification in s.issuedNotifications {
      if Trying(Step(s, e), j, receipt) {
        TryingOrigin(s, e, j, receipt);
      }
    } else {
      UnissuedHasNone(s, j, receipt);
    }
  }

  lemma RecordingStaysBounded(s: System, e: Event, a: Attempt)
    requires Inv(s) && Bounded(s, a.id, a.receipt) && a in s.handouts && Fence(s, a) && Finishes(e, a)
    requires RecordedNumbers(Step(s, e), a.id, a.receipt) == RecordedNumbers(s, a.id, a.receipt) + {a.number}
    ensures Bounded(Step(s, e), a.id, a.receipt)
  {
    RetriesStayBelow(s, e, a);
    assert AllBelow(RecordedNumbers(Step(s, e), a.id, a.receipt) - {a.number}, MaxAttempts(a.receipt));
  }

  lemma RecordingStep(s: System, e: Event)
    requires Step(s, e).log != s.log && Step(s, e).log[|s.log|].Recorded?
    ensures
      var a := Step(s, e).log[|s.log|].attempt;
      Finishes(e, a) && Fence(s, a) && a in s.handouts
  {}

  lemma StepKeepsBounded(s: System, e: Event, j: JobId, receipt: bool)
    requires Inv(s) && LogOk(s) && Bounded(s, j, receipt)
    ensures Bounded(Step(s, e), j, receipt)
  {
    RecordedGrows(s, e, j, receipt);
    if RecordedNumbers(Step(s, e), j, receipt) == RecordedNumbers(s, j, receipt) {
      UnmovedStaysBounded(s, e, j, receipt);
    } else {
      RecordingStep(s, e);
      RecordingStaysBounded(s, e, Step(s, e).log[|s.log|].attempt);
    }
  }

  lemma {:induction false} RunKeepsBounded(s: System, es: seq<Event>, j: JobId, receipt: bool)
    requires Inv(s) && LogOk(s) && Bounded(s, j, receipt)
    ensures Bounded(Run(s, es), j, receipt)
    decreases |es|
  {
    if es != [] {
      StepKeepsInv(s, es[0]);
      StepKeepsLog(s, es[0]);
      StepKeepsBounded(s, es[0], j, receipt);
      RunKeepsBounded(Step(s, es[0]), es[1..], j, receipt);
    }
  }

  lemma {:induction false} BelowSize(numbers: set<nat>, limit: nat)
    requires AllBelow(numbers, limit) && limit >= 1
    ensures |numbers| < limit
    decreases limit
  {
    if numbers != {} {
      var n := Member(numbers);
      assert limit > 1;
      BelowSize(numbers - {limit - 1}, limit - 1);
    }
  }

  /** However often workers crash and are overtaken, at most five send results and eight receipt results
      of one job are ever accepted. */
  lemma AcceptedResultsAreFew(es: seq<Event>, j: JobId)
    ensures |RecordedNumbers(Run(EMPTY_SYSTEM, es), j, false)| <= MAX_PUSH_SEND_ATTEMPTS
    ensures |RecordedNumbers(Run(EMPTY_SYSTEM, es), j, true)| <= MAX_PUSH_RECEIPT_ATTEMPTS
  {
    FewAccepted(es, j, false);
    FewAccepted(es, j, true);
  }

  lemma FewAccepted(es: seq<Event>, j: JobId, receipt: bool)
    ensures |RecordedNumbers(Run(EMPTY_SYSTEM, es), j, receipt)| <= MaxAttempts(receipt)
  {
    assert AllBelow(RecordedNumbers(EMPTY_SYSTEM, j, receipt) - {0}, MaxAttempts(receipt));
    RunKeepsBounded(EMPTY_SYSTEM, es, j, receipt);
    var numbers := RecordedNumbers(Run(EMPTY_SYSTEM, es), j, receipt);
    var last :| AllBelow(numbers - {last}, MaxAttempts(receipt));
    BelowSize(numbers - {last}, MaxAttempts(receipt));
  }

  // -------------------------------------------------------- rounds of a job

  /** One uninterrupted claim with its result. */
  datatype Round = Round(answer: Option<Answer>, now: Time)

  function PlayRound(job: Job, r: Round): Job {
    if job.status == Queued then
      var row := SendClaimed(job, r.now + PUSH_LEASE_MS);
      SentJob(row, TicketKind(row, r.answer, r.now), r.now)
    else if job.status == ReceiptPending && job.ticket.Some? then
      var row := ReceiptClaimed(job, r.now + PUSH_LEASE_MS);
      CheckedJob(row, CheckKind(row, r.answer, r.now), r.now)
    else job
  }

  function Play(job: Job, rounds: seq<Round>): Job
    decreases |rounds|
  {
    if rounds == [] then job else Play(PlayRound(job, rounds[0]), rounds[1..])
  }

  /** What is left to do: sends and then receipt checks. */
  function Rank(job: Job): nat {
    if job.status == Queued && job.sendAttempts < MAX_PUSH_SEND_ATTEMPTS
    then MAX_PUSH_SEND_ATTEMPTS - job.sendAttempts + MAX_PUSH_RECEIPT_ATTEMPTS
    else if job.status == ReceiptPending && job.receiptAttempts < MAX_PUSH_RECEIPT_ATTEMPTS
    then MAX_PUSH_RECEIPT_ATTEMPTS - job.receiptAttempts
    else 0
  }

  predicate AtRest(job: Job) { Paced(job) && job.status != Sending && job.status != ReceiptChecking }

  lemma RoundLowersRank(job: Job, r: Round)
    requires AtRest(job)
    ensures AtRest(PlayRound(job, r))
    ensures OpenStatus(job.status) ==> Rank(PlayRound(job, r)) < Rank(job)
    ensures PlayRound(job, r).sendAttempts
         <= if job.sendAttempts > MAX_PUSH_SEND_ATTEMPTS then job.sendAttempts else MAX_PUSH_SEND_ATTEMPTS
    ensures PlayRound(job, r).receiptAttempts
         <= if job.receiptAttempts > MAX_PUSH_RECEIPT_ATTEMPTS then job.receiptAttempts else MAX_PUSH_RECEIPT_ATTEMPTS
  {}

  /** Without crashes a job is finished after at most five sends and eight receipt checks, whatever the
      provider answers. */
  lemma {:induction false} RoundsFinish(job: Job, rounds: seq<Round>)
    requires AtRest(job) && |rounds| >= Rank(job)
    ensures !OpenStatus(Play(job, rounds).status)
    ensures job.sendAttempts <= MAX_PUSH_SEND_ATTEMPTS ==> Play(job, rounds).sendAttempts <= MAX_PUSH_SEND_ATTEMPTS
    ensures job.receiptAttempts <= MAX_PUSH_RECEIPT_ATTEMPTS ==>
      Play(job, rounds).receiptAttempts <= MAX_PUSH_RECEIPT_ATTEMPTS
    decreases |rounds|
  {
    if rounds != [] {
      RoundLowersRank(job, rounds[0]);
      RoundsFinish(PlayRound(job, rounds[0]), rounds[1..]);
    }
  }

  /** `t` is what the round makes of the job, but for a token that is gone. */
  predicate RoundDone(s: System, t: System, j: JobId, r: Round)
    requires j in s.db.jobs
  {
    j in t.db.jobs && t.db.jobs[j].(pushToken := None) == PlayRound(s.db.jobs[j], r).(pushToken := None)
  }

  lemma SendResultOnJob(s: System, a: Attempt, answer: Option<Answer>)
    requires a in s.handouts && !a.receipt && Fence(s, a)
    ensures
      var t, h := Step(s, FinishSend(a, answer)), s.handouts[a];
      a.id in t.db.jobs
      && t.db.jobs[a.id].(pushToken := None)
         == SentJob(s.db.jobs[a.id], TicketKind(h.row, answer, h.now), h.now).(pushToken := None)
  {}

  lemma ReceiptResultOnJob(s: System, a: Attempt, answer: Option<Answer>)
    requires a in s.handouts && a.receipt && Fence(s, a) && s.handouts[a].row.ticket.Some?
    ensures
      var t, h := Step(s, FinishReceipt(a, answer)), s.handouts[a];
      a.id in t.db.jobs
      && t.db.jobs[a.id].(pushToken := None)
         == CheckedJob(s.db.jobs[a.id], CheckKind(h.row, answer, h.now), h.now).(pushToken := None)
  {}

  /** A round of a due job is a claim and a result of the system. */
  lemma SendRound(s: System, j: JobId, r: Round)
    requires Inv(s) && j in s.db.jobs && s.db.jobs[j].status == Queued && SendDue(s.db.jobs[j], r.now)
    ensures
      var a := Attempt(j, false, s.db.jobs[j].sendAttempts + 1);
      RoundDone(s, Step(SendStep(s, j, r.now), FinishSend(a, r.answer)), j, r)
  {
    SendResultOnJob(SendStep(s, j, r.now), Attempt(j, false, s.db.jobs[j].sendAttempts + 1), r.answer);
  }

  lemma ReceiptRound(s: System, j: JobId, r: Round)
    requires Inv(s) && j in s.db.jobs && s.db.jobs[j].status == ReceiptPending && ReceiptDue(s.db.jobs[j], r.now)
    ensures
      var a := Attempt(j, true, s.db.jobs[j].receiptAttempts + 1);
      RoundDone(s, Step(ReceiptStep(s, j, r.now), FinishReceipt(a, r.answer)), j, r)
  {
    assert Paced(s.db.jobs[j]);
    ReceiptResultOnJob(ReceiptStep(s, j, r.now), Attempt(j, true, s.db.jobs[j].receiptAttempts + 1), r.answer);
  }

  // --------------------------------------------------------- crash-free runs

  /** The numbers of a job's attempts that were handed out. */
  function HandedNumbers(s: System, j: JobId, receipt: bool): set<nat> {
    set i | 0 <= i < |s.log| && s.log[i].Handed? && s.log[i].attempt.id == j && s.log[i].attempt.receipt == receipt
      :: s.log[i].attempt.number
  }

  ghost predicate RecordedBetween(log: seq<Entry>, i: int, k: int, a: Attempt) {
    exists m :: i < m < k && 0 <= m < |log| && log[m] == Recorded(a)
  }

  /** Every attempt of the job is recorded before the next one is handed out. */
  ghost predicate CrashFree(log: seq<Entry>, j: JobId) {
    forall i, k :: 0 <= i < k < |log| && log[i].Handed? && log[k].Handed?
                   && log[i].attempt.id == j && log[k].attempt.id == j ==>
      RecordedBetween(log, i, k, log[i].attempt)
  }

  /** An attempt whose result would be accepted was handed out. */
  ghost predicate FencesHanded(s: System) { forall a :: Fence(s, a) ==> a in s.handouts && Handed(a) in s.log }

  lemma ClaimHands(s: System, e: Event, a: Attempt)
    requires ClaimsAttempt(s, e, a) && Step(s, e) != s
    ensures a in Step(s, e).handouts && Handed(a) in Step(s, e).log
  {
    assert Step(s, e).log[|s.log|] == Handed(a);
  }

  lemma StepKeepsFencesHanded(s: System, e: Event)
    requires Inv(s) && FencesHanded(s)
    ensures FencesHanded(Step(s, e))
  {
    var t := Step(s, e);
    StepKeepsHistory(s, e);
    forall a | Fence(t, a)
      ensures a in t.handouts && Handed(a) in t.log
    {
      FenceOrigin(s, e, a);
      if !Fence(s, a) {
        ClaimHands(s, e, a);
      }
    }
  }

  lemma CrashFreePrefix(log: seq<Entry>, more: seq<Entry>, j: JobId)
    requires log <= more && CrashFree(more, j)
    ensures CrashFree(log, j)
  {
    forall i, k | 0 <= i < k < |log| && log[i].Handed? && log[k].Handed? && log[i].attempt.id == j && log[k].attempt.id == j
      ensures RecordedBetween(log, i, k, log[i].attempt)
    {
      assert more[i] == log[i] && more[k] == log[k];
      assert RecordedBetween(more, i, k, log[i].attempt);
    }
  }

  /** Without crashes an attempt is recorded when the job is claimed again. */
  lemma PreviousIsRecorded(log: seq<Entry>, a: Attempt, previous: Attempt)
    requires CrashFree(log + [Handed(a)], a.id) && previous.id == a.id && Handed(previous) in log
    ensures Recorded(previous) in log
  {
    var more := log + [Handed(a)];
    var i :| 0 <= i < |log| && log[i] == Handed(previous);
    assert more[i] == Handed(previous) && more[|log|] == Handed(a);
    assert RecordedBetween(more, i, |log|, previous);
    var m :| i < m < |log| && more[m] == Recorded(previous);
    assert log[m] == Recorded(previous);
  }

  /** So the job is not in flight then. */
  lemma CrashFreeClaim(s: System, t: System, a: Attempt, previous: Attempt)
    requires LogOk(s) && FencesHanded(s) && t.log == s.log + [Handed(a)]
    requires CrashFree(t.log, a.id) && previous.id == a.id
    ensures !Fence(s, previous)
  {
    if Handed(previous) in s.log {
      PreviousIsRecorded(s.log, a, previous);
    }
  }

  ghost predicate HandedInBounds(s: System, j: JobId) {
    forall entry :: entry in s.log && entry.Handed? && entry.attempt.id == j ==>
      1 <= entry.attempt.number <= MaxAttempts(entry.attempt.receipt)
  }

  lemma HandedOrigin(s: System, e: Event, j: JobId)
    requires Inv(s)
    ensures
      var t := Step(s, e);
      || t.log == s.log
      || (t.log == s.log + [t.log[|s.log|]]
          && (t.log[|s.log|].Handed? && t.log[|s.log|].attempt.id == j ==> ClaimsAttempt(s, e, t.log[|s.log|].attempt)))
  {}

  lemma ClaimInBounds(s: System, e: Event, a: Attempt)
    requires Inv(s) && ClaimsAttempt(s, e, a) && Step(s, e) != s
    requires !Fence(s, Attempt(a.id, a.receipt, a.number - 1))
    ensures 1 <= a.number <= MaxAttempts(a.receipt)
  {
    assert Paced(s.db.jobs[a.id]);
  }

  lemma StepKeepsHandedInBounds(s: System, e: Event, j: JobId)
    requires Inv(s) && LogOk(s) && FencesHanded(s) && HandedInBounds(s, j) && CrashFree(Step(s, e).log, j)
    ensures HandedInBounds(Step(s, e), j)
  {
    var t := Step(s, e);
    HandedOrigin(s, e, j);
    if t.log != s.log && t.log[|s.log|].Handed? && t.log[|s.log|].attempt.id == j {
      var a := t.log[|s.log|].attempt;
      CrashFreeClaim(s, t, a, Attempt(a.id, a.receipt, a.number - 1));
      ClaimInBounds(s, e, a);
    }
  }

  lemma {:induction false} RunHistory(s: System, es: seq<Event>)
    ensures s.log <= Run(s, es).log
    decreases |es|
  {
    if es != [] {
      StepKeepsHistory(s, es[0]);
      RunHistory(Step(s, es[0]), es[1..]);
    }
  }

  lemma {:induction false} RunKeepsHandedInBounds(s: System, es: seq<Event>, j: JobId)
    requires Inv(s) && LogOk(s) && FencesHanded(s) && HandedInBounds(s, j) && CrashFree(Run(s, es).log, j)
    ensures HandedInBounds(Run(s, es), j)
    decreases |es|
  {
    if es != [] {
      StepKeepsInv(s, es[0]);
      StepKeepsLog(s, es[0]);
      StepKeepsFencesHanded(s, es[0]);
      RunHistory(Step(s, es[0]), es[1..]);
      CrashFreePrefix(Step(s, es[0]).log, Run(s, es).log, j);
      StepKeepsHandedInBounds(s, es[0], j);
      RunKeepsHandedInBounds(Step(s, es[0]), es[1..], j);
    }
  }

  lemma HandedFew(s: System, j: JobId, receipt: bool)
    requires HandedInBounds(s, j)
    ensures |HandedNumbers(s, j, receipt)| <= MaxAttempts(receipt)
  {
    forall n | n in HandedNumbers(s, j, receipt)
      ensures 1 <= n < MaxAttempts(receipt) + 1
    {
      var i :| 0 <= i < |s.log| && s.log[i].Handed? && s.log[i].attempt == Attempt(j, receipt, n);
      assert s.log[i] in s.log;
    }
    BelowSize(HandedNumbers(s, j, receipt), MaxAttempts(receipt) + 1);
  }

  /** In every run without crashes of a job's workers, at most five sends and eight receipt checks of it are
      handed out; and in every run, after thirteen accepted results it is finished. */
  lemma CrashFreeRunsFinish(es: seq<Event>, j: JobId)
    ensures
      var s := Run(EMPTY_SYSTEM, es);
      && (CrashFree(s.log, j) ==>
            && |HandedNumbers(s, j, false)| <= MAX_PUSH_SEND_ATTEMPTS
            && |HandedNumbers(s, j, true)| <= MAX_PUSH_RECEIPT_ATTEMPTS)
      && (|RecordedNumbers(s, j, false)| + |RecordedNumbers(s, j, true)|
            >= MAX_PUSH_SEND_ATTEMPTS + MAX_PUSH_RECEIPT_ATTEMPTS && j in s.db.jobs ==>
            !OpenStatus(s.db.jobs[j].status))
  {
    var s := Run(EMPTY_SYSTEM, es);
    if CrashFree(s.log, j) {
      RunKeepsHandedInBounds(EMPTY_SYSTEM, es, j);
      HandedFew(s, j, false);
      HandedFew(s, j, true);
    }
    OpenHasResultsLeft(es, j);
  }

  lemma OpenHasResultsLeft(es: seq<Event>, j: JobId)
    ensures
      var s := Run(EMPTY_SYSTEM, es);
      j in s.db.jobs && OpenStatus(s.db.jobs[j].status) ==>
        |RecordedNumbers(s, j, false)| <= MAX_PUSH_SEND_ATTEMPTS
        && |RecordedNumbers(s, j, true)| < MAX_PUSH_RECEIPT_ATTEMPTS
  {
    var s := Run(EMPTY_SYSTEM, es);
    AcceptedResultsAreFew(es, j);
    assert AllBelow(RecordedNumbers(EMPTY_SYSTEM, j, true) - {0}, MAX_PUSH_RECEIPT_ATTEMPTS);
    RunKeepsBounded(EMPTY_SYSTEM, es, j, true);
    if Trying(s, j, true) {
      BelowSize(RecordedNumbers(s, j, true), MAX_PUSH_RECEIPT_ATTEMPTS);
    }
  }

  // ------------------------------------------------------------ jobs get there

  /** From this moment on an open job can be claimed, and not before. */
  function DueMoment(job: Job): Time
    requires Paced(job) && OpenStatus(job.status)
  {
    if job.status == Queued then job.nextAttemptAt
    else if job.status == ReceiptPending
    then if job.nextAttemptAt > job.receiptAvailableAt.value then job.nextAttemptAt else job.receiptAvailableAt.value
    else job.lease.value
  }

  /** No open job is ever stuck, and none is claimed before its time. */
  lemma OpenJobsComeDue(es: seq<Event>, j: JobId, now: Time)
    ensures
      var db := Run(EMPTY_SYSTEM, es).db;
      j in db.jobs && OpenStatus(db.jobs[j].status) ==>
        Paced(db.jobs[j])
        && (now >= DueMoment(db.jobs[j]) <==> SendDue(db.jobs[j], now) || ReceiptDue(db.jobs[j], now))
  {
    RunKeepsInv(EMPTY_SYSTEM, es);
    var db := Run(EMPTY_SYSTEM, es).db;
    assert j in db.jobs ==> Paced(db.jobs[j]);
  }

  lemma RunPair(s: System, claim: Event, finish: Event, rest: seq<Event>)
    ensures Run(s, [claim] + ([finish] + rest)) == Run(Step(Step(s, claim), finish), rest)
  {
    assert ([claim] + ([finish] + rest))[1..] == [finish] + rest;
    assert ([finish] + rest)[1..] == rest;
  }

  function ClaimOf(job: Job, j: JobId): Event
    requires Paced(job) && OpenStatus(job.status)
  {
    if job.status == Queued then ClaimSend(j, DueMoment(job)) else ClaimReceipt(j, DueMoment(job))
  }

  function FinishOf(job: Job, j: JobId, answer: Option<Answer>): Event {
    if job.status == Queued then FinishSend(Attempt(j, false, job.sendAttempts + 1), answer)
    else FinishReceipt(Attempt(j, true, job.receiptAttempts + 1), answer)
  }

  /** What a waiting job's claim, once it is due, and the result come to. */
  function Played(s: System, j: JobId, answer: Option<Answer>): System
    requires j in s.db.jobs && Paced(s.db.jobs[j]) && OpenStatus(s.db.jobs[j].status)
  {
    var job := s.db.jobs[j];
    Step(if job.status == Queued then SendStep(s, j, DueMoment(job)) else ReceiptStep(s, j, DueMoment(job)),
         FinishOf(job, j, answer))
  }

  lemma PlayedIsAPair(s: System, j: JobId, answer: Option<Answer>, rest: seq<Event>)
    requires j in s.db.jobs && Paced(s.db.jobs[j]) && OpenStatus(s.db.jobs[j].status)
    ensures
      var job := s.db.jobs[j];
      Run(s, [ClaimOf(job, j)] + ([FinishOf(job, j, answer)] + rest)) == Run(Played(s, j, answer), rest)
  {
    RunPair(s, ClaimOf(s.db.jobs[j], j), FinishOf(s.db.jobs[j], j, answer), rest);
  }

  lemma PlayedKeepsInv(s: System, j: JobId, answer: Option<Answer>)
    requires Inv(s) && j in s.db.jobs && OpenStatus(s.db.jobs[j].status)
    ensures Paced(s.db.jobs[j]) && Inv(Played(s, j, answer))
  {
    var job := s.db.jobs[j];
    StepKeepsInv(s, ClaimOf(job, j));
    StepKeepsInv(Step(s, ClaimOf(job, j)), FinishOf(job, j, answer));
  }

  lemma SendsPlayed(s: System, j: JobId, answer: Option<Answer>)
    requires j in s.db.jobs && Paced(s.db.jobs[j]) && s.db.jobs[j].status == Queued
    ensures Played(s, j, answer)
         == Step(SendStep(s, j, s.db.jobs[j].nextAttemptAt), FinishSend(Attempt(j, false, s.db.jobs[j].sendAttempts + 1), answer))
  {}

  lemma PlaySend(s: System, j: JobId, answer: Option<Answer>)
    requires Inv(s) && j in s.db.jobs && s.db.jobs[j].status == Queued
    ensures
      Paced(s.db.jobs[j])
      && RoundDone(s, Played(s, j, answer), j, Round(answer, DueMoment(s.db.jobs[j])))
  {
    SendRound(s, j, Round(answer, DueMoment(s.db.jobs[j])));
    SendsPlayed(s, j, answer);
  }

  lemma PlayReceipt(s: System, j: JobId, answer: Option<Answer>)
    requires Inv(s) && j in s.db.jobs && s.db.jobs[j].status == ReceiptPending
    ensures
      Paced(s.db.jobs[j])
      && RoundDone(s, Played(s, j, answer), j, Round(answer, DueMoment(s.db.jobs[j])))
  {
    ReceiptRound(s, j, Round(answer, DueMoment(s.db.jobs[j])));
  }

  /** Whatever the provider answers, an undisturbed job reaches its end in the system within its rank. */
  lemma {:induction false} JobFinishesInSystem(s: System, j: JobId, answers: seq<Option<Answer>>)
    returns (es: seq<Event>)
    requires Inv(s) && j in s.db.jobs && AtRest(s.db.jobs[j]) && |answers| >= Rank(s.db.jobs[j])
    ensures |es| <= 2 * Rank(s.db.jobs[j])
    ensures j in Run(s, es).db.jobs && !OpenStatus(Run(s, es).db.jobs[j].status)
    decreases |answers|
  {
    if OpenStatus(s.db.jobs[j].status) {
      var job := s.db.jobs[j];
      var t := Played(s, j, answers[0]);
      if job.status == Queued {
        PlaySend(s, j, answers[0]);
      } else {
        PlayReceipt(s, j, answers[0]);
      }
      PlayedKeepsInv(s, j, answers[0]);
      RoundLowersRank(job, Round(answers[0], DueMoment(job)));
      var rest := JobFinishesInSystem(t, j, answers[1..]);
      PlayedIsAPair(s, j, answers[0], rest);
      es := [ClaimOf(job, j)] + ([FinishOf(job, j, answers[0])] + rest);
    } else {
      es := [];
    }
  }

  // ------------------------------------------------------- batches are runs

  function ClaimEvent(id: JobId, receipt: bool, now: Time): Event {
    if receipt then ClaimReceipt(id, now) else ClaimSend(id, now)
  }

  function ClaimEvents(jobs: seq<Claimed>, receipt: bool, now: Time): seq<Event> {
    seq(|jobs|, i requires 0 <= i < |jobs| => ClaimEvent(jobs[i].id, receipt, now))
  }

  function AttemptOf(job: Claimed, receipt: bool): Attempt { Attempt(job.id, receipt, Counter(job.row, receipt)) }

  function SendEvents(jobs: seq<Claimed>, reply: SendReply): seq<Event> {
    seq(|jobs|, i requires 0 <= i < |jobs| => FinishSend(AttemptOf(jobs[i], false), SendAnswer(jobs, reply, i)))
  }

  function CheckEvents(jobs: seq<Claimed>, reply: ReceiptReply): seq<Event> {
    seq(|jobs|, i requires 0 <= i < |jobs| => FinishReceipt(AttemptOf(jobs[i], true), ReceiptAnswer(jobs, reply, i)))
  }

  lemma {:induction false} RunConcat(s: System, a: seq<Event>, b: seq<Event>)
    ensures Run(s, a + b) == Run(Run(s, a), b)
    decreases |a|
  {
    if a == [] {
      assert a + b == b;
    } else {
      assert (a + b)[1..] == a[1..] + b;
      RunConcat(Step(s, a[0]), a[1..], b);
    }
  }

  function Ids(jobs: seq<Claimed>): set<JobId> { set i | 0 <= i < |jobs| :: jobs[i].id }

  ghost predicate HandedOut(s: System, jobs: seq<Claimed>, receipt: bool, now: Time) {
    forall i :: 0 <= i < |jobs| ==>
      && AttemptOf(jobs[i], receipt) in s.handouts
      && s.handouts[AttemptOf(jobs[i], receipt)] == Handout(jobs[i].row, now)
  }

  predicate Due(job: Job, receipt: bool, now: Time) { if receipt then ReceiptDue(job, now) else SendDue(job, now) }

  function ClaimedJob(job: Job, receipt: bool, now: Time): Job {
    if receipt then ReceiptClaimed(job, now + PUSH_LEASE_MS) else SendClaimed(job, now + PUSH_LEASE_MS)
  }

  function ClaimAll(jobs: map<JobId, Job>, ids: set<JobId>, receipt: bool, now: Time): map<JobId, Job> {
    if receipt then ClaimReceipts(jobs, ids, now + PUSH_LEASE_MS) else ClaimSends(jobs, ids, now + PUSH_LEASE_MS)
  }

  ghost predicate Claimable(s: System, jobs: seq<Claimed>, receipt: bool, now: Time) {
    && (forall i :: 0 <= i < |jobs| ==>
          && jobs[i].id in s.db.jobs && Due(s.db.jobs[jobs[i].id], receipt, now)
          && jobs[i].row == ClaimedJob(s.db.jobs[jobs[i].id], receipt, now))
    && (forall i, j :: 0 <= i < j < |jobs| ==> jobs[i].id != jobs[j].id)
  }

  lemma ClaimRun(s: System, j: JobId, receipt: bool, now: Time)
    requires j in s.db.jobs && Due(s.db.jobs[j], receipt, now)
    ensures
      var row := ClaimedJob(s.db.jobs[j], receipt, now);
      Run(s, [ClaimEvent(j, receipt, now)]) == Claim(s, j, row, Attempt(j, receipt, Counter(row, receipt)), now)
  {
    assert [ClaimEvent(j, receipt, now)][1..] == [];
  }

  lemma ClaimOneMore(s: System, t: System, rest: seq<Claimed>, last: Claimed, receipt: bool, now: Time)
    requires Claimable(s, rest + [last], receipt, now)
    requires t.db == s.db.(jobs := ClaimAll(s.db.jobs, Ids(rest), receipt, now))
    requires HandedOut(t, rest, receipt, now)
    ensures last.id in t.db.jobs && t.db.jobs[last.id] == s.db.jobs[last.id]
    ensures
      var u := Claim(t, last.id, last.row, AttemptOf(last, receipt), now);
      && u.db == s.db.(jobs := ClaimAll(s.db.jobs, Ids(rest) + {last.id}, receipt, now))
      && HandedOut(u, rest + [last], receipt, now)
  {
    var jobs := rest + [last];
    assert jobs[|rest|] == last && forall i :: 0 <= i < |rest| ==> jobs[i] == rest[i];
    assert last.id !in Ids(rest);
  }

  lemma LastClaim(s: System, rest: seq<Claimed>, last: Claimed, receipt: bool, now: Time)
    ensures Run(s, ClaimEvents(rest + [last], receipt, now))
         == Run(Run(s, ClaimEvents(rest, receipt, now)), [ClaimEvent(last.id, receipt, now)])
  {
    assert ClaimEvents(rest + [last], receipt, now)
        == ClaimEvents(rest, receipt, now) + [ClaimEvent(last.id, receipt, now)];
    RunConcat(s, ClaimEvents(rest, receipt, now), [ClaimEvent(last.id, receipt, now)]);
  }

  ghost predicate ClaimsRun(s: System, t: System, jobs: seq<Claimed>, receipt: bool, now: Time) {
    t.db == s.db.(jobs := ClaimAll(s.db.jobs, Ids(jobs), receipt, now)) && HandedOut(t, jobs, receipt, now)
  }

  lemma ClaimsNext(s: System, t: System, rest: seq<Claimed>, last: Claimed, receipt: bool, now: Time)
    requires Claimable(s, rest + [last], receipt, now) && ClaimsRun(s, t, rest, receipt, now)
    ensures ClaimsRun(s, Run(t, [ClaimEvent(last.id, receipt, now)]), rest + [last], receipt, now)
  {
    var jobs := rest + [last];
    assert jobs[|rest|] == last && forall i :: 0 <= i < |rest| ==> jobs[i] == rest[i];
    assert Ids(jobs) == Ids(rest) + {last.id};
    ClaimOneMore(s, t, rest, last, receipt, now);
    ClaimRun(t, last.id, receipt, now);
  }

  lemma {:induction false} ClaimsAreARun(s: System, jobs: seq<Claimed>, receipt: bool, now: Time)
    requires Claimable(s, jobs, receipt, now)
    ensures ClaimsRun(s, Run(s, ClaimEvents(jobs, receipt, now)), jobs, receipt, now)
    decreases |jobs|
  {
    if jobs == [] {
      assert ClaimAll(s.db.jobs, Ids(jobs), receipt, now) == s.db.jobs;
    } else {
      var rest, last := jobs[..|jobs| - 1], jobs[|jobs| - 1];
      assert jobs == rest + [last];
      ClaimsAreARun(s, rest, receipt, now);
      LastClaim(s, rest, last, receipt, now);
      ClaimsNext(s, Run(s, ClaimEvents(rest, receipt, now)), rest, last, receipt, now);
    }
  }

  lemma {:induction false} SendsAreARun(s: System, jobs: seq<Claimed>, reply: SendReply, now: Time, k: nat)
    requires HandedOut(s, jobs, false, now) && k <= |jobs|
    ensures Run(s, SendEvents(jobs, reply)[k..]).db == ApplySends(s.db, SendResults(jobs, reply, now)[k..], now)
    decreases |jobs| - k
  {
    if k < |jobs| {
      var events, results := SendEvents(jobs, reply), SendResults(jobs, reply, now);
      assert events[k..][1..] == events[k + 1..] && results[k..][1..] == results[k + 1..];
      SendsAreARun(Step(s, events[k]), jobs, reply, now, k + 1);
    }
  }

  lemma {:induction false} ChecksAreARun(s: System, jobs: seq<Claimed>, reply: ReceiptReply, now: Time, k: nat)
    requires HandedOut(s, jobs, true, now) && k <= |jobs|
    ensures Run(s, CheckEvents(jobs, reply)[k..]).db == ApplyReceipts(s.db, ReceiptResults(jobs, reply, now)[k..], now)
    decreases |jobs| - k
  {
    if k < |jobs| {
      var events, results := CheckEvents(jobs, reply), ReceiptResults(jobs, reply, now);
      assert events[k..][1..] == events[k + 1..] && results[k..][1..] == results[k + 1..];
      ChecksAreARun(Step(s, events[k]), jobs, reply, now, k + 1);
    }
  }

  lemma ListedIds(jobs: seq<Claimed>, ids: set<JobId>, rows: map<JobId, Job>)
    requires Lists(jobs, ids, rows)
    ensures Ids(jobs) == ids
  {
    forall id | id in ids ensures id in Ids(jobs) {
      assert Listed(jobs, id);
    }
  }

  /** A whole send batch is a run of the system, so what every run keeps, the service's batches keep. */
  lemma SendBatchIsARun(
      s: System, after: Database, ids: set<JobId>, jobs: seq<Claimed>, reply: SendReply, now: Time, limit: nat)
    requires SendBatch(s.db, after, ids, jobs, reply, now, limit)
    ensures Run(s, ClaimEvents(jobs, false, now) + SendEvents(jobs, reply)).db == after
  {
    ListedIds(jobs, ids, ClaimSends(s.db.jobs, ids, now + PUSH_LEASE_MS));
    ClaimsAreARun(s, jobs, false, now);
    SendsAreARun(Run(s, ClaimEvents(jobs, false, now)), jobs, reply, now, 0);
    assert SendEvents(jobs, reply)[0..] == SendEvents(jobs, reply);
    assert SendResults(jobs, reply, now)[0..] == SendResults(jobs, reply, now);
    RunConcat(s, ClaimEvents(jobs, false, now), SendEvents(jobs, reply));
  }

  /** And so is a whole receipt batch. */
  lemma ReceiptBatchIsARun(
      s: System, after: Database, ids: set<JobId>, jobs: seq<Claimed>, reply: ReceiptReply, now: Time, limit: nat)
    requires ReceiptBatch(s.db, after, ids, jobs, reply, now, limit)
    ensures Run(s, ClaimEvents(jobs, true, now) + CheckEvents(jobs, reply)).db == after
  {
    ListedIds(jobs, ids, ClaimReceipts(s.db.jobs, ids, now + PUSH_LEASE_MS));
    ClaimsAreARun(s, jobs, true, now);
    ChecksAreARun(Run(s, ClaimEvents(jobs, true, now)), jobs, reply, now, 0);
    assert CheckEvents(jobs, reply)[0..] == CheckEvents(jobs, reply);
    assert ReceiptResults(jobs, reply, now)[0..] == ReceiptResults(jobs, reply, now);
    RunConcat(s, ClaimEvents(jobs, true, now), CheckEvents(jobs, reply));
  }
}
