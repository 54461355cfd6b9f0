/** The two maintenance batches of push delivery. */
module PushService {
  import opened Common
  import opened ClaimBatch
  import opened PushTable
  import opened PushRules
  import opened PushOutcomes

  predicate Balanced(s: Summary) { s.claimed == s.succeeded + s.retryScheduled + s.permanentlyFailed }

  /** Every claimed job is counted exactly once. */
  lemma {:induction false} SummariesBalance(sends: seq<SendResult>, receipts: seq<ReceiptResult>, hasMore: bool)
    ensures Balanced(SummarizeSends(sends, hasMore)) && Balanced(SummarizeReceipts(receipts, hasMore))
    decreases |sends| + |receipts|
  {
    if sends != [] {
      SummariesBalance(sends[..|sends| - 1], receipts, hasMore);
    } else if receipts != [] {
      SummariesBalance(sends, receipts[..|receipts| - 1], hasMore);
    }
  }

  // ------------------------------------------------------------- the batches

  /** `jobs` lists the claimed rows in some order. */
  ghost predicate Lists(jobs: seq<Claimed>, ids: set<JobId>, rows: map<JobId, Job>) {
    && |jobs| == |ids|
    && (forall i, j :: 0 <= i < j < |jobs| ==> jobs[i].id != jobs[j].id)
    && (forall i :: 0 <= i < |jobs| ==> jobs[i].id in ids && jobs[i].id in rows && jobs[i].row == rows[jobs[i].id])
    && (forall id :: id in ids ==> Listed(jobs, id))
  }

  predicate Listed(jobs: seq<Claimed>, id: JobId) { exists i :: 0 <= i < |jobs| && jobs[i].id == id }

  /** One whole batch: claim the first due jobs, send them, record what came of each. */
  ghost predicate SendBatch(
      before: Database, after: Database, ids: set<JobId>, jobs: seq<Claimed>, reply: SendReply, now: Time, limit: nat)
  {
    var claimed := ClaimSends(before.jobs, ids, now + PUSH_LEASE_MS);
    && IsFirstOf(ids, DueSends(before.jobs, now), SendOrder(before.jobs), limit)
    && Lists(jobs, ids, claimed)
    && after == ApplySends(before.(jobs := claimed), SendResults(jobs, reply, now), now)
  }

  ghost predicate ReceiptBatch(
      before: Database, after: Database, ids: set<JobId>, jobs: seq<Claimed>, reply: ReceiptReply, now: Time, limit: nat)
  {
    var claimed := ClaimReceipts(before.jobs, ids, now + PUSH_LEASE_MS);
    && IsFirstOf(ids, DueReceipts(before.jobs, now), ReceiptOrder(before.jobs), limit)
    && Lists(jobs, ids, claimed)
    && after == ApplyReceipts(before.(jobs := claimed), ReceiptResults(jobs, reply, now), now)
  }

  lemma SendBatchMeets(
      before: Database, after: Database, ids: set<JobId>, jobs: seq<Claimed>, reply: SendReply, now: Time, limit: nat)
    requires SendBatch(before, after, ids, jobs, reply, now, limit)
    ensures SendBatchAnswer(before, after, jobs, reply, now)
  {
    var db := before.(jobs := ClaimSends(before.jobs, ids, now + PUSH_LEASE_MS));
    AllSendsSettle(db, jobs, reply, now);
    OutsideUntouched(jobs, ids, db.jobs);
    SettledFromBefore(before, db, after, jobs, AnswersToSends(jobs, reply), SettledSends(jobs, reply, now), now);
  }

  lemma ReceiptBatchMeets(
      before: Database, after: Database, ids: set<JobId>, jobs: seq<Claimed>, reply: ReceiptReply, now: Time, limit: nat)
    requires ReceiptBatch(before, after, ids, jobs, reply, now, limit)
    ensures ReceiptBatchAnswer(before, after, jobs, reply, now)
  {
    var db := before.(jobs := ClaimReceipts(before.jobs, ids, now + PUSH_LEASE_MS));
    AllChecksSettle(db, jobs, reply, now);
    OutsideUntouched(jobs, ids, db.jobs);
    SettledFromBefore(before, db, after, jobs, AnswersToChecks(jobs, reply), SettledChecks(jobs, reply, now), now);
  }

  lemma OutsideUntouched(jobs: seq<Claimed>, ids: set<JobId>, rows: map<JobId, Job>)
    requires Lists(jobs, ids, rows)
    ensures forall j :: !Among(jobs, |jobs|, j) ==> j !in ids
  {
    forall j | j in ids
      ensures Among(jobs, |jobs|, j)
    {
      assert Listed(jobs, j);
    }
  }

  predicate LimitOk(limit: int) { 1 <= limit <= MAX_EXPO_MESSAGES_PER_REQUEST }

  lemma ListOneMore(jobs: seq<Claimed>, ids: set<JobId>, rows: map<JobId, Job>, id: JobId)
    requires Lists(jobs, ids, rows) && id !in ids && id in rows
    ensures Lists(jobs + [Claimed(id, rows[id])], ids + {id}, rows)
  {
    var longer := jobs + [Claimed(id, rows[id])];
    assert longer[|jobs|].id == id;
    forall k | k in ids + {id}
      ensures Listed(longer, k)
    {
      if k != id {
        assert Listed(jobs, k);
        var i :| 0 <= i < |jobs| && jobs[i].id == k;
        assert longer[i].id == k;
      }
    }
  }

  lemma ListNext(jobs: seq<Claimed>, ids: set<JobId>, rest: set<JobId>, rows: map<JobId, Job>, id: JobId)
    requires rest <= ids && Lists(jobs, ids - rest, rows) && id in rest && id in rows
    ensures Lists(jobs + [Claimed(id, rows[id])], ids - (rest - {id}), rows)
  {
    ListOneMore(jobs, ids - rest, rows, id);
    assert ids - (rest - {id}) == (ids - rest) + {id};
  }

  method ListJobs(ids: set<JobId>, rows: map<JobId, Job>) returns (jobs: seq<Claimed>)
    requires ids <= rows.Keys
    ensures Lists(jobs, ids, rows)
  {
    jobs := [];
    var rest := ids;
    while rest != {}
      invariant rest <= ids
      invariant Lists(jobs, ids - rest, rows)
      decreases rest
    {
      ghost var member := Member(rest);
      var id :| id in rest;
      ListNext(jobs, ids, rest, rows, id);
      jobs, rest := jobs + [Claimed(id, rows[id])], rest - {id};
    }
    assert ids - rest == ids;
  }

  class Service {
    const repository: NotificationRepository
    const pushEnabled: bool

    constructor (repository: NotificationRepository, pushEnabled: bool)
      ensures this.repository == repository && this.pushEnabled == pushEnabled
    {
      this.repository, this.pushEnabled := repository, pushEnabled;
    }

    /** `reply` is what the provider answers; None is PUSH_BATCH_LIMIT_INVALID. */
    method ProcessPushOutboxBatch(now: Time, limit: int, reply: SendReply)
      returns (summary: Option<Summary>, ghost ids: set<JobId>, ghost jobs: seq<Claimed>)
      modifies repository
      ensures !pushEnabled ==> summary == Some(EMPTY_BATCH) && repository.Db() == old(repository.Db())
      ensures pushEnabled && !LimitOk(limit) ==> summary == None && repository.Db() == old(repository.Db())
      ensures pushEnabled && LimitOk(limit) ==>
        && SendBatch(old(repository.Db()), repository.Db(), ids, jobs, reply, now, limit)
        && summary == Some(SummarizeSends(
             SendResults(jobs, reply, now), ids != {} && DueSends(old(repository.jobs), now) - ids != {}))
      ensures pushEnabled && LimitOk(limit) ==>
        var settled := SettledSends(jobs, reply, now);
        && SendBatchAnswer(old(repository.Db()), repository.Db(), jobs, reply, now)
        && summary == Some(Summary(
             |jobs|, |EndedAs(settled, {ReceiptPending})|, |EndedAs(settled, {Queued})|,
             |EndedAs(settled, {FailedPermanent, Exhausted})|,
             ids != {} && DueSends(old(repository.jobs), now) - ids != {}))
    {
      ids, jobs := {}, [];
      if !pushEnabled {
        return Some(EMPTY_BATCH), ids, jobs;
      }
      if !LimitOk(limit) {
        return None, ids, jobs;
      }
      var claimed, hasMore := repository.ClaimSendBatch(now, now + PUSH_LEASE_MS, limit);
      ids := claimed;
      ClaimLeavesTheRestDue(old(repository.jobs), ids, now, now + PUSH_LEASE_MS);
      if claimed == {} {
        assert SendResults(jobs, reply, now) == [];
        SendBatchMeets(old(repository.Db()), repository.Db(), ids, jobs, reply, now, limit);
        SendsCounted(jobs, reply, now, hasMore);
        return Some(EMPTY_BATCH.(hasMore := hasMore)), ids, jobs;
      }
      var listed := ListJobs(claimed, repository.jobs);
      jobs := listed;
      var results := SendResults(listed, reply, now);
      repository.ApplySendResults(results, now);
      SendBatchMeets(old(repository.Db()), repository.Db(), ids, jobs, reply, now, limit);
      SendsCounted(jobs, reply, now, hasMore);
      summary := Some(SummarizeSends(results, hasMore));
    }

    method ProcessPushReceiptBatch(now: Time, limit: int, reply: ReceiptReply)
      returns (summary: Option<Summary>, ghost ids: set<JobId>, ghost jobs: seq<Claimed>)
      modifies repository
      ensures !pushEnabled ==> summary == Some(EMPTY_BATCH) && repository.Db() == old(repository.Db())
      ensures pushEnabled && !LimitOk(limit) ==> summary == None && repository.Db() == old(repository.Db())
      ensures pushEnabled && LimitOk(limit) ==>
        && ReceiptBatch(old(repository.Db()), repository.Db(), ids, jobs, reply, now, limit)
        && summary == Some(SummarizeReceipts(
             ReceiptResults(jobs, reply, now), ids != {} && DueReceipts(old(repository.jobs), now) - ids != {}))
      ensures pushEnabled && LimitOk(limit) ==>
        var settled := SettledChecks(jobs, reply, now);
        && ReceiptBatchAnswer(old(repository.Db()), repository.Db(), jobs, reply, now)
        && summary == Some(Summary(
             |jobs|, |EndedAs(settled, {Delivered})|, |EndedAs(settled, {ReceiptPending})|,
             |EndedAs(settled, {FailedPermanent, Exhausted})|,
             ids != {} && DueReceipts(old(repository.jobs), now) - ids != {}))
    {
      ids, jobs := {}, [];
      if !pushEnabled {
        return Some(EMPTY_BATCH), ids, jobs;
      }
      if !LimitOk(limit) {
        return None, ids, jobs;
      }
      var claimed, hasMore := repository.ClaimReceiptBatch(now, now + PUSH_LEASE_MS, limit);
      ids := claimed;
      ClaimLeavesTheRestDue(old(repository.jobs), ids, now, now + PUSH_LEASE_MS);
      if claimed == {} {
        assert ReceiptResults(jobs, reply, now) == [];
        ReceiptBatchMeets(old(repository.Db()), repository.Db(), ids, jobs, reply, now, limit);
        ChecksCounted(jobs, reply, now, hasMore);
        return Some(EMPTY_BATCH.(hasMore := hasMore)), ids, jobs;
      }
      var listed := ListJobs(claimed, repository.jobs);
      jobs := listed;
      var results := ReceiptResults(listed, reply, now);
      repository.ApplyReceiptResults(results, now);
      ReceiptBatchMeets(old(repository.Db()), repository.Db(), ids, jobs, reply, now, limit);
      ChecksCounted(jobs, reply, now, hasMore);
      summary := Some(SummarizeReceipts(results, hasMore));
    }
  }

  // ---------------------------------------------------------------- draining

  /** No result puts its job back in the queue before the batch's moment has passed. */
  ghost predicate SendsLater(results: seq<SendResult>, now: Time) {
    forall i :: 0 <= i < |results| && results[i].kind.RetrySend? ==> results[i].kind.nextAttemptAt > now
  }

  ghost predicate ReceiptsLater(results: seq<ReceiptResult>, now: Time) {
    forall i :: 0 <= i < |results| ==>
      (results[i].kind.RetryReceipt? ==> results[i].kind.nextAttemptAt > now)
  }

  lemma SendResultsAreLater(jobs: seq<Claimed>, reply: SendReply, now: Time)
    ensures SendsLater(SendResults(jobs, reply, now), now)
  {
    forall i | 0 <= i < |jobs|
      ensures BackoffMs(jobs[i].row.sendAttempts) > 0
    {
      BackoffBounds(jobs[i].row.sendAttempts, jobs[i].row.sendAttempts);
    }
  }

  lemma ReceiptResultsAreLater(jobs: seq<Claimed>, reply: ReceiptReply, now: Time)
    ensures ReceiptsLater(ReceiptResults(jobs, reply, now), now)
  {
    forall i | 0 <= i < |jobs|
      ensures BackoffMs(jobs[i].row.receiptAttempts) > 0
    {
      BackoffBounds(jobs[i].row.receiptAttempts, jobs[i].row.receiptAttempts);
    }
  }

  /** Recording a result makes nothing due. */
  lemma AppliedSendDue(db: Database, r: SendResult, now: Time)
    requires r.kind.RetrySend? ==> r.kind.nextAttemptAt > now
    ensures
      var after := ApplySend(db, r, now).jobs;
      && after.Keys == db.jobs.Keys
      && (forall j :: j in db.jobs && SendDue(after[j], now) ==> SendDue(db.jobs[j], now))
  {
    if SendFence(db, r) {
      var updated := db.(jobs := db.jobs[r.id := SentJob(db.jobs[r.id], r.kind, now)]);
      InvalidatedLeaves(updated, if r.kind.SendPermanent? then r.kind.invalidate else None, r.id, now);
      assert !SendDue(updated.jobs[r.id], now);
    }
  }

  lemma AppliedReceiptDue(db: Database, r: ReceiptResult, now: Time)
    requires r.kind.RetryReceipt? ==> r.kind.nextAttemptAt > now
    ensures
      var after := ApplyReceipt(db, r, now).jobs;
      && after.Keys == db.jobs.Keys
      && (forall j :: j in db.jobs && ReceiptDue(after[j], now) ==> ReceiptDue(db.jobs[j], now))
  {
    if ReceiptFence(db, r) {
      var updated := db.(jobs := db.jobs[r.id := CheckedJob(db.jobs[r.id], r.kind, now)]);
      InvalidatedLeaves(updated, if r.kind.ReceiptPermanent? then r.kind.invalidate else None, r.id, now);
      assert !ReceiptDue(updated.jobs[r.id], now);
    }
  }

  lemma {:induction false} AppliedSendsDue(db: Database, results: seq<SendResult>, now: Time)
    requires SendsLater(results, now)
    ensures DueSends(ApplySends(db, results, now).jobs, now) <= DueSends(db.jobs, now)
    ensures ApplySends(db, results, now).jobs.Keys == db.jobs.Keys
    decreases |results|
  {
    if results != [] {
      AppliedSendDue(db, results[0], now);
      AppliedSendsDue(ApplySend(db, results[0], now), results[1..], now);
    }
  }

  lemma {:induction false} AppliedReceiptsDue(db: Database, results: seq<ReceiptResult>, now: Time)
    requires ReceiptsLater(results, now)
    ensures DueReceipts(ApplyReceipts(db, results, now).jobs, now) <= DueReceipts(db.jobs, now)
    ensures ApplyReceipts(db, results, now).jobs.Keys == db.jobs.Keys
    decreases |results|
  {
    if results != [] {
      AppliedReceiptDue(db, results[0], now);
      AppliedReceiptsDue(ApplyReceipt(db, results[0], now), results[1..], now);
    }
  }

  /** A batch takes exactly the jobs it claimed out of the due set, and those that an invalidated token
      took with it. */
  lemma SendBatchShrinks(
      before: Database, after: Database, ids: set<JobId>, jobs: seq<Claimed>, reply: SendReply, now: Time, limit: nat)
    requires SendBatch(before, after, ids, jobs, reply, now, limit)
    ensures DueSends(after.jobs, now) <= DueSends(before.jobs, now) - ids
  {
    var claimed := before.(jobs := ClaimSends(before.jobs, ids, now + PUSH_LEASE_MS));
    SendResultsAreLater(jobs, reply, now);
    ClaimLeavesTheRestDue(before.jobs, ids, now, now + PUSH_LEASE_MS);
    AppliedSendsDue(claimed, SendResults(jobs, reply, now), now);
  }

  lemma ReceiptBatchShrinks(
      before: Database, after: Database, ids: set<JobId>, jobs: seq<Claimed>, reply: ReceiptReply, now: Time, limit: nat)
    requires ReceiptBatch(before, after, ids, jobs, reply, now, limit)
    ensures DueReceipts(after.jobs, now) <= DueReceipts(before.jobs, now) - ids
  {
    var claimed := before.(jobs := ClaimReceipts(before.jobs, ids, now + PUSH_LEASE_MS));
    ReceiptResultsAreLater(jobs, reply, now);
    ClaimLeavesTheRestDue(before.jobs, ids, now, now + PUSH_LEASE_MS);
    AppliedReceiptsDue(claimed, ReceiptResults(jobs, reply, now), now);
  }

  /** One step of a maintenance run at a fixed moment: some send batch, answered in some way. */
  ghost predicate SomeSendBatch(before: Database, after: Database, now: Time, limit: nat) {
    exists ids: set<JobId>, jobs: seq<Claimed>, reply: SendReply ::
      SendBatch(before, after, ids, jobs, reply, now, limit)
  }

  /** Batches repeated at one moment drain the due set, `limit` jobs at a time or faster, whatever the
      provider answers. */
  lemma {:induction false} SendBatchesDrain(states: seq<Database>, now: Time, limit: nat)
    requires states != []
    requires forall i :: 0 <= i < |states| - 1 ==> SomeSendBatch(states[i], states[i + 1], now, limit)
    ensures
      var due, left := |DueSends(states[0].jobs, now)|, |DueSends(states[|states| - 1].jobs, now)|;
      left == 0 || left + (|states| - 1) * limit <= due
    decreases |states|
  {
    if |states| > 1 {
      var before, after := states[|states| - 2], states[|states| - 1];
      assert SomeSendBatch(before, after, now, limit) by { assert states[|states| - 2 + 1] == after; }
      SendBatchesDrain(states[..|states| - 1], now, limit);
      var ids, jobs, reply :| SendBatch(before, after, ids, jobs, reply, now, limit);
      SendBatchShrinks(before, after, ids, jobs, reply, now, limit);
      var due := DueSends(before.jobs, now);
      SubsetSize(DueSends(after.jobs, now), due - ids);
      assert |due - ids| == |due| - |ids|;
      assert (|states| - 1) * limit == (|states| - 2) * limit + limit;
    }
  }

  ghost predicate SomeReceiptBatch(before: Database, after: Database, now: Time, limit: nat) {
    exists ids: set<JobId>, jobs: seq<Claimed>, reply: ReceiptReply ::
      ReceiptBatch(before, after, ids, jobs, reply, now, limit)
  }

  lemma {:induction false} ReceiptBatchesDrain(states: seq<Database>, now: Time, limit: nat)
    requires states != []
    requires forall i :: 0 <= i < |states| - 1 ==> SomeReceiptBatch(states[i], states[i + 1], now, limit)
    ensures
      var due, left := |DueReceipts(states[0].jobs, now)|, |DueReceipts(states[|states| - 1].jobs, now)|;
      left == 0 || left + (|states| - 1) * limit <= due
    decreases |states|
  {
    if |states| > 1 {
      var before, after := states[|states| - 2], states[|states| - 1];
      assert SomeReceiptBatch(before, after, now, limit) by { assert states[|states| - 2 + 1] == after; }
      ReceiptBatchesDrain(states[..|states| - 1], now, limit);
      var ids, jobs, reply :| ReceiptBatch(before, after, ids, jobs, reply, now, limit);
      ReceiptBatchShrinks(before, after, ids, jobs, reply, now, limit);
      var due := DueReceipts(before.jobs, now);
      SubsetSize(DueReceipts(after.jobs, now), due - ids);
      assert |due - ids| == |due| - |ids|;
      assert (|states| - 1) * limit == (|states| - 2) * limit + limit;
    }
  }
}
