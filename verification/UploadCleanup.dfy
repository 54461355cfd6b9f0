/** cleanupExpiredStagingBatch: claim a batch, delete the objects of each row, record what went away; and
    the run of the interleaving model that the batch is. */
module UploadCleanup {
  import opened Common
  import opened ClaimBatch
  import opened UploadTable
  import opened UploadPipeline

  const MAX_CLEANUP_BATCH := 100

  /** What the object store answers for one row; a failed deletion may still have taken effect. */
  datatype Deletion = Deletion(stagingOk: bool, finalOk: bool, finalLanded: bool)

  const NO_ANSWER := Deletion(false, false, false)

  function AnswerFor(answers: map<UploadId, Deletion>, id: UploadId): Deletion {
    if id in answers then answers[id] else NO_ANSWER
  }

  predicate FinalGone(job: CleanupJob, d: Deletion) { job.finalKey.Some? && (d.finalOk || d.finalLanded) }

  function ResultOf(job: CleanupJob, d: Deletion): CleanupResult {
    JobResult(job, d.stagingOk, d.finalOk && job.finalKey.Some?)
  }

  predicate Completed(job: CleanupJob, d: Deletion) { ResultOf(job, d).nextAttemptAt.None? }

  /** What the batch makes of a claimed row. */
  function CleanedUp(id: UploadId, u: Upload, now: Time, d: Deletion): Upload {
    CleanedRow(CleanupClaimedRow(u, now + CLEANUP_LEASE_MS), ResultOf(JobFor(id, u, now), d))
  }

  /** The table while the batch is worked off: `rest` is claimed, the other jobs are done. */
  function WorkedOff(
      t: Table, jobs: set<UploadId>, rest: set<UploadId>, answers: map<UploadId, Deletion>, now: Time): Table
  {
    map id | id in t ::
      if id !in jobs then t[id]
      else if id in rest then CleanupClaimedRow(t[id], now + CLEANUP_LEASE_MS)
      else CleanedUp(id, t[id], now, AnswerFor(answers, id))
  }

  /** The final keys that the done jobs removed from the store. */
  function RemovedKeys(t: Table, done: set<UploadId>, answers: map<UploadId, Deletion>, now: Time): set<ObjectKey> {
    set id | id in done && id in t && FinalGone(JobFor(id, t[id], now), AnswerFor(answers, id))
      :: JobFor(id, t[id], now).finalKey.value
  }

  function Succeeded(t: Table, done: set<UploadId>, answers: map<UploadId, Deletion>, now: Time): set<UploadId> {
    set id | id in done && id in t && Completed(JobFor(id, t[id], now), AnswerFor(answers, id))
  }

  datatype Summary = Summary(claimed: nat, succeeded: nat, retryScheduled: nat, hasMore: bool)

  // ------------------------------------------------- what the batch owes the rows

  /** The final object of the row is to be deleted, and still is not. */
  predicate Doomed(u: Upload) { u.finalDeletionPendingAt.Some? && u.finalDeletedAt.None? }

  predicate HasWork(u: Upload) { u.stagingDeletedAt.None? || Doomed(u) }

  /** What a batch makes of a row it claimed: an open one has expired, each object whose deletion was
      confirmed is written off, and only when nothing is left to delete is the row let go; otherwise it
      waits for its backoff. */
  predicate RowCleaned(u: Upload, v: Upload, now: Time, d: Deletion) {
    var open := u.status == Pending || u.status == Processing;
    var gone := Doomed(u) && (u.final.None? || d.finalOk);
    && v == u.(
         status := if open then Failed else u.status,
         failureCode := if open then Some("UPLOAD_EXPIRED") else u.failureCode,
         processingLease := None,
         cleanupAttempts := u.cleanupAttempts + 1,
         stagingDeletedAt := if u.stagingDeletedAt.None? && d.stagingOk then Some(now) else u.stagingDeletedAt,
         final := if gone then None else u.final,
         verifiedAt := if gone then None else u.verifiedAt,
         finalDeletedAt := if gone then Some(now) else u.finalDeletedAt,
         cleanupLease := v.cleanupLease)
    && v.cleanupLease == if HasWork(v) then Some(now + BackoffMs(v.cleanupAttempts)) else None
  }

  lemma CleanedUpMeets(id: UploadId, u: Upload, now: Time, d: Deletion)
    ensures RowCleaned(u, CleanedUp(id, u, now, d), now, d)
    ensures Completed(JobFor(id, u, now), d) <==> CleanedUp(id, u, now, d).cleanupLease.None?
  {}

  /** The batch's rows and store: only claimed rows change, and a key leaves the store only with the claimed
      row whose doomed object it is, when the deletion took effect. */
  ghost predicate BatchCleaned(
    t: Table, t': Table, jobs: set<UploadId>, store: set<ObjectKey>, store': set<ObjectKey>, now: Time,
    answers: map<UploadId, Deletion>)
  {
    && t'.Keys == t.Keys
    && (forall id :: id in t && id !in jobs ==> t'[id] == t[id])
    && (forall id :: id in t && id in jobs ==> RowCleaned(t[id], t'[id], now, AnswerFor(answers, id)))
    && (forall key :: key in store' <==> key in store && !DeletedBy(t, jobs, answers, key))
  }

  ghost predicate DeletedBy(t: Table, jobs: set<UploadId>, answers: map<UploadId, Deletion>, key: ObjectKey) {
    exists id :: id in jobs && id in t && Doomed(t[id]) && t[id].final.Some? && t[id].final.value.key == key
                 && (AnswerFor(answers, id).finalOk || AnswerFor(answers, id).finalLanded)
  }

  lemma RemovedAreDeleted(t: Table, jobs: set<UploadId>, answers: map<UploadId, Deletion>, now: Time, key: ObjectKey)
    ensures key in RemovedKeys(t, jobs, answers, now) <==> DeletedBy(t, jobs, answers, key)
  {
    if key in RemovedKeys(t, jobs, answers, now) {
      var id :| id in jobs && id in t && FinalGone(JobFor(id, t[id], now), AnswerFor(answers, id))
                && key == JobFor(id, t[id], now).finalKey.value;
      assert Doomed(t[id]) && t[id].final.value.key == key;
    }
    if DeletedBy(t, jobs, answers, key) {
      var id :| id in jobs && id in t && Doomed(t[id]) && t[id].final.Some? && t[id].final.value.key == key
                && (AnswerFor(answers, id).finalOk || AnswerFor(answers, id).finalLanded);
      assert FinalGone(JobFor(id, t[id], now), AnswerFor(answers, id));
    }
  }

  /** A batch over any claimed rows meets this, and the rows it is done with are those it let go. */
  lemma BatchMeets(
      t: Table, jobs: set<UploadId>, store: set<ObjectKey>, now: Time, answers: map<UploadId, Deletion>)
    requires jobs <= t.Keys
    ensures
      var t' := WorkedOff(t, jobs, {}, answers, now);
      && BatchCleaned(t, t', jobs, store, store - RemovedKeys(t, jobs, answers, now), now, answers)
      && Succeeded(t, jobs, answers, now) == set id | id in jobs && t'[id].cleanupLease.None?
  {
    forall id | id in t
      ensures RowCleaned(t[id], CleanedUp(id, t[id], now, AnswerFor(answers, id)), now, AnswerFor(answers, id))
      ensures Completed(JobFor(id, t[id], now), AnswerFor(answers, id))
         <==> CleanedUp(id, t[id], now, AnswerFor(answers, id)).cleanupLease.None?
    {
      CleanedUpMeets(id, t[id], now, AnswerFor(answers, id));
    }
    forall key
      ensures key in RemovedKeys(t, jobs, answers, now) <==> DeletedBy(t, jobs, answers, key)
    {
      RemovedAreDeleted(t, jobs, answers, now, key);
    }
  }

  /** A row let go never comes back; any other one is due again exactly from its backoff on. */
  lemma RetriedExactlyAfterBackoff(u: Upload, v: Upload, now: Time, d: Deletion, later: Time)
    requires RowCleaned(u, v, now, d)
    ensures CleanupDue(v, later) <==> HasWork(v) && now + BackoffMs(u.cleanupAttempts + 1) <= later
  {}

  predicate Passed(column: Option<Time>, now: Time) { column.Some? ==> column.value <= now }

  /** When exactly a row is due: no lease shields it, and unless only a doomed object is left of it, an open
      upload has expired and nobody is processing it. */
  lemma DueIff(id: UploadId, u: Upload, now: Time)
    requires RowOk(id, u)
    ensures CleanupDue(u, now) <==>
      && HasWork(u) && Passed(u.cleanupLease, now)
      && (u.status == Pending || u.status == Processing ==>
            Doomed(u) || (u.expiresAt <= now && Passed(u.processingLease, now)))
  {}

  ghost predicate DueFrom(u: Upload, from: Time) { forall later :: from <= later ==> CleanupDue(u, later) }

  /** A row is due from some moment on if and only if an object of it is left to delete. */
  lemma WorkComesDue(id: UploadId, u: Upload)
    requires RowOk(id, u)
    ensures HasWork(u) <==> exists from :: DueFrom(u, from)
  {
    var lease := if u.cleanupLease.Some? then u.cleanupLease.value else u.expiresAt;
    var processing := if u.processingLease.Some? then u.processingLease.value else u.expiresAt;
    var latest := if lease < processing then processing else lease;
    var from := if latest < u.expiresAt then u.expiresAt else latest;
    if HasWork(u) {
      assert DueFrom(u, from);
    } else {
      forall start
        ensures !DueFrom(u, start)
      {
        assert !CleanupDue(u, start);
      }
    }
  }

  lemma WorkOffOne(
      t: Table, jobs: set<UploadId>, rest: set<UploadId>, answers: map<UploadId, Deletion>, now: Time, id: UploadId)
    requires id in rest && rest <= jobs && id in t
    ensures
      var result := ResultOf(JobFor(id, t[id], now), AnswerFor(answers, id));
      Cleaned(WorkedOff(t, jobs, rest, answers, now), id, result) == WorkedOff(t, jobs, rest - {id}, answers, now)
  {}

  lemma RemoveOne(t: Table, done: set<UploadId>, answers: map<UploadId, Deletion>, now: Time, id: UploadId)
    requires id in t
    ensures
      var job := JobFor(id, t[id], now);
      RemovedKeys(t, done + {id}, answers, now)
        == RemovedKeys(t, done, answers, now) + if FinalGone(job, AnswerFor(answers, id)) then {job.finalKey.value} else {}
  {}

  lemma OneMore(done: set<UploadId>, before: set<UploadId>, id: UploadId)
    requires id !in done && before <= done
    ensures |before + {id}| == |before| + 1 && (done + {id}) - (before + {id}) == done - before
    ensures |(done + {id}) - before| == |done - before| + 1
  {
    assert (done + {id}) - before == (done - before) + {id};
  }

  lemma CountOne(t: Table, done: set<UploadId>, answers: map<UploadId, Deletion>, now: Time, id: UploadId)
    requires id in t && id !in done
    ensures
      var before, after := Succeeded(t, done, answers, now), Succeeded(t, done + {id}, answers, now);
      if Completed(JobFor(id, t[id], now), AnswerFor(answers, id))
      then |after| == |before| + 1 && (done + {id}) - after == done - before
      else after == before && |(done + {id}) - after| == |done - before| + 1
  {
    OneMore(done, Succeeded(t, done, answers, now), id);
    SucceededOne(t, done, answers, now, id);
  }

  lemma SucceededOne(t: Table, done: set<UploadId>, answers: map<UploadId, Deletion>, now: Time, id: UploadId)
    requires id in t
    ensures Succeeded(t, done + {id}, answers, now)
         == Succeeded(t, done, answers, now) + if Completed(JobFor(id, t[id], now), AnswerFor(answers, id)) then {id} else {}
  {}

  /** How far the batch is, but for the table: `rest` is still to do. */
  ghost predicate Progress(
    t: Table, jobs: set<UploadId>, rest: set<UploadId>, answers: map<UploadId, Deletion>, now: Time,
    initial: set<ObjectKey>, store: set<ObjectKey>, succeeded: nat, retried: nat)
  {
    && rest <= jobs <= t.Keys
    && store == initial - RemovedKeys(t, jobs - rest, answers, now)
    && succeeded == |Succeeded(t, jobs - rest, answers, now)|
    && retried == |(jobs - rest) - Succeeded(t, jobs - rest, answers, now)|
  }

  lemma StoreProgress(
      t: Table, jobs: set<UploadId>, rest: set<UploadId>, answers: map<UploadId, Deletion>, now: Time,
      initial: set<ObjectKey>, id: UploadId)
    requires id in rest && rest <= jobs <= t.Keys
    ensures
      var job := JobFor(id, t[id], now);
      initial - RemovedKeys(t, jobs - (rest - {id}), answers, now)
        == initial - RemovedKeys(t, jobs - rest, answers, now)
           - if FinalGone(job, AnswerFor(answers, id)) then {job.finalKey.value} else {}
  {
    assert jobs - (rest - {id}) == (jobs - rest) + {id};
    RemoveOne(t, jobs - rest, answers, now, id);
  }

  lemma ProgressOne(
      t: Table, jobs: set<UploadId>, rest: set<UploadId>, answers: map<UploadId, Deletion>, now: Time,
      initial: set<ObjectKey>, store: set<ObjectKey>, succeeded: nat, retried: nat, id: UploadId)
    requires Progress(t, jobs, rest, answers, now, initial, store, succeeded, retried) && id in rest
    ensures
      var job, d := JobFor(id, t[id], now), AnswerFor(answers, id);
      var left := store - if FinalGone(job, d) then {job.finalKey.value} else {};
      if Completed(job, d)
      then Progress(t, jobs, rest - {id}, answers, now, initial, left, succeeded + 1, retried)
      else Progress(t, jobs, rest - {id}, answers, now, initial, left, succeeded, retried + 1)
  {
    assert jobs - (rest - {id}) == (jobs - rest) + {id};
    StoreProgress(t, jobs, rest, answers, now, initial, id);
    CountOne(t, jobs - rest, answers, now, id);
  }

  class CleanupWorker {
    const repository: UploadRepository
    const store: ObjectStore

    constructor (repository: UploadRepository, store: ObjectStore)
      ensures this.repository == repository && this.store == store
    {
      this.repository, this.store := repository, store;
    }

    /** One claimed row: delete its objects, then record what is gone. */
    method CleanUpOne(
        id: UploadId, now: Time, d: Deletion, ghost before: Table, ghost jobs: set<UploadId>, ghost rest: set<UploadId>,
        ghost answers: map<UploadId, Deletion>)
      returns (completed: bool)
      requires id in rest && rest <= jobs && id in before && d == AnswerFor(answers, id)
      requires repository.rows == WorkedOff(before, jobs, rest, answers, now)
      modifies store, repository
      ensures completed == Completed(JobFor(id, before[id], now), d)
      ensures repository.rows == WorkedOff(before, jobs, rest - {id}, answers, now)
      ensures store.keys == old(store.keys)
        - if FinalGone(JobFor(id, before[id], now), d) then {JobFor(id, before[id], now).finalKey.value} else {}
    {
      WorkOffOne(before, jobs, rest, answers, now, id);
      var upload := repository.rows[id];
      var stagingRequired := upload.stagingDeletedAt.None?;
      var finalRequired := FinalDeletionDue(upload);
      var stagingDeleted := !stagingRequired || d.stagingOk;
      var finalDeleted := true;
      if finalRequired && upload.final.Some? {
        if d.finalOk || d.finalLanded {
          store.keys := store.keys - {upload.final.value.key};
        }
        finalDeleted := d.finalOk;
      }
      completed := stagingDeleted && finalDeleted;
      var retryAt := if completed then None else Some(now + BackoffMs(upload.cleanupAttempts));
      repository.ApplyCleanupResult(
        id,
        CleanupResult(
          now + CLEANUP_LEASE_MS, stagingRequired && stagingDeleted, finalRequired && finalDeleted, retryAt, now));
    }

    /** None is UPLOAD_BATCH_LIMIT_INVALID. */
    method CleanupExpiredStagingBatch(now: Time, limit: int, answers: map<UploadId, Deletion>)
      returns (summary: Option<Summary>, ghost jobs: set<UploadId>)
      modifies store, repository
      ensures !(1 <= limit <= MAX_CLEANUP_BATCH) ==>
        summary == None && repository.rows == old(repository.rows) && store.keys == old(store.keys)
      ensures 1 <= limit <= MAX_CLEANUP_BATCH ==>
        var t := old(repository.rows);
        && IsFirstOf(jobs, DueForCleanup(t, now), ClaimOrder(t), limit)
        && repository.rows == WorkedOff(t, jobs, {}, answers, now)
        && store.keys == old(store.keys) - RemovedKeys(t, jobs, answers, now)
        && summary == Some(Summary(
             |jobs|, |Succeeded(t, jobs, answers, now)|, |jobs - Succeeded(t, jobs, answers, now)|,
             jobs != {} && DueForCleanup(t, now) - jobs != {}))
      ensures 1 <= limit <= MAX_CLEANUP_BATCH ==>
        && CleanupClaimAnswer(old(repository.rows), jobs, now, limit)
        && BatchCleaned(old(repository.rows), repository.rows, jobs, old(store.keys), store.keys, now, answers)
        && summary.Some? && summary.value.claimed == |jobs|
        && summary.value.succeeded == |set id | id in jobs && repository.rows[id].cleanupLease.None?|
    {
      if !(1 <= limit <= MAX_CLEANUP_BATCH) {
        return None, {};
      }
      ghost var t := repository.rows;
      var claimed, hasMore := repository.ClaimCleanupBatch(now, now + CLEANUP_LEASE_MS, limit);
      jobs := claimed;
      ClaimLeavesTheRestDue(t, jobs, now, now + CLEANUP_LEASE_MS);
      assert repository.rows == WorkedOff(t, jobs, jobs, answers, now);
      BatchMeets(t, jobs, store.keys, now, answers);
      var succeeded, retried := WorkOff(claimed, now, answers, t);
      summary := Some(Summary(|claimed|, succeeded, retried, hasMore));
    }

    method WorkOff(jobs: set<UploadId>, now: Time, answers: map<UploadId, Deletion>, ghost t: Table)
      returns (succeeded: nat, retried: nat)
      requires jobs <= t.Keys && repository.rows == WorkedOff(t, jobs, jobs, answers, now)
      modifies store, repository
      ensures repository.rows == WorkedOff(t, jobs, {}, answers, now)
      ensures store.keys == old(store.keys) - RemovedKeys(t, jobs, answers, now)
      ensures succeeded == |Succeeded(t, jobs, answers, now)| && retried == |jobs - Succeeded(t, jobs, answers, now)|
    {
      var rest := jobs;
      succeeded, retried := 0, 0;
      while rest != {}
        invariant repository.rows == WorkedOff(t, jobs, rest, answers, now)
        invariant Progress(t, jobs, rest, answers, now, old(store.keys), store.keys, succeeded, retried)
        decreases rest
      {
        ghost var member := Member(rest);
        var id :| id in rest;
        ProgressOne(t, jobs, rest, answers, now, old(store.keys), store.keys, succeeded, retried, id);
        var completed := CleanUpOne(id, now, AnswerFor(answers, id), t, jobs, rest, answers);
        rest := rest - {id};
        if completed {
          succeeded := succeeded + 1;
        } else {
          retried := retried + 1;
        }
      }
      assert jobs - rest == jobs;
    }
  }

  // ------------------------------------------------------------ the batch is a run

  function Done(ids: seq<UploadId>, k: nat): set<UploadId>
    requires k <= |ids|
  {
    set i | 0 <= i < k :: ids[i]
  }

  ghost predicate Distinct(ids: seq<UploadId>) { forall i, j :: 0 <= i < j < |ids| ==> ids[i] != ids[j] }

  /** Claim the rows one by one, as jobs numbered from `base`. */
  function ClaimEvents(ids: seq<UploadId>, base: JobId, now: Time, k: nat): seq<Event>
    requires k <= |ids|
    decreases |ids| - k
  {
    if k == |ids| then [] else [ClaimCleanup(base + k, ids[k], now)] + ClaimEvents(ids, base, now, k + 1)
  }

  /** Delete and record the jobs one by one; a deletion that did not take effect is no event. */
  function WorkEvents(s: System, ids: seq<UploadId>, base: JobId, now: Time, answers: map<UploadId, Deletion>, k: nat)
    : seq<Event>
    requires k <= |ids| && forall i :: 0 <= i < |ids| ==> ids[i] in s.rows
    decreases |ids| - k
  {
    if k == |ids| then []
    else
      var job, d := JobFor(ids[k], s.rows[ids[k]], now), AnswerFor(answers, ids[k]);
      (if FinalGone(job, d) then [DeleteLands(base + k)] else [])
      + ([ApplyCleanup(base + k, d.stagingOk, d.finalOk && job.finalKey.Some?)]
         + WorkEvents(s, ids, base, now, answers, k + 1))
  }

  /** The job is the claim of that row of `s`, and still open. */
  predicate JobReady(s: System, t: System, id: UploadId, j: JobId, now: Time) {
    id in s.rows && j in t.jobs && t.jobs[j] == JobFor(id, s.rows[id], now)
  }

  /** `s` with the first `k` rows claimed. */
  ghost predicate ClaimedUpTo(s: System, t: System, ids: seq<UploadId>, base: JobId, now: Time, k: nat)
    requires k <= |ids|
  {
    && t.rows == WorkedOff(s.rows, Done(ids, k), Done(ids, k), map[], now)
    && t.store == s.store && t.clock == s.clock
    && (forall j :: j in t.jobs ==> j < base + k)
    && (forall i :: 0 <= i < k ==> JobReady(s, t, ids[i], base + i, now))
  }

  lemma ClaimNext(s: System, t: System, ids: seq<UploadId>, base: JobId, now: Time, k: nat)
    requires k < |ids| && Distinct(ids) && ClaimedUpTo(s, t, ids, base, now, k)
    requires now <= s.clock && ids[k] in s.rows && CleanupDue(s.rows[ids[k]], now)
    ensures ClaimedUpTo(s, ClaimJob(t, base + k, ids[k], now), ids, base, now, k + 1)
  {
    var u := ClaimJob(t, base + k, ids[k], now);
    assert Done(ids, k + 1) == Done(ids, k) + {ids[k]};
    assert ids[k] !in Done(ids, k);
    assert t.rows[ids[k]] == s.rows[ids[k]] && base + k !in t.jobs;
    assert u.rows == WorkedOff(s.rows, Done(ids, k + 1), Done(ids, k + 1), map[], now);
  }

  lemma ClaimCons(t: System, ids: seq<UploadId>, base: JobId, now: Time, k: nat)
    requires k < |ids|
    ensures Run(t, ClaimEvents(ids, base, now, k))
         == Run(ClaimJob(t, base + k, ids[k], now), ClaimEvents(ids, base, now, k + 1))
  {
    RunCons(t, ClaimCleanup(base + k, ids[k], now), ClaimEvents(ids, base, now, k + 1));
  }

  lemma {:induction false} ClaimsAreARun(s: System, t: System, ids: seq<UploadId>, base: JobId, now: Time, k: nat)
    requires k <= |ids| && Distinct(ids) && ClaimedUpTo(s, t, ids, base, now, k) && now <= s.clock
    requires forall i :: 0 <= i < |ids| ==> ids[i] in s.rows && CleanupDue(s.rows[ids[i]], now)
    ensures ClaimedUpTo(s, Run(t, ClaimEvents(ids, base, now, k)), ids, base, now, |ids|)
    decreases |ids| - k
  {
    if k < |ids| {
      ClaimNext(s, t, ids, base, now, k);
      ClaimCons(t, ids, base, now, k);
      ClaimsAreARun(s, ClaimJob(t, base + k, ids[k], now), ids, base, now, k + 1);
    }
  }

  /** `t` after the first `k` of the claimed rows have been worked off. */
  ghost predicate WorkedUpTo(
    s: System, t: System, ids: seq<UploadId>, base: JobId, now: Time, answers: map<UploadId, Deletion>, k: nat)
    requires k <= |ids|
  {
    var all := Done(ids, |ids|);
    && t.rows == WorkedOff(s.rows, all, all - Done(ids, k), answers, now)
    && t.store == s.store - RemovedKeys(s.rows, Done(ids, k), answers, now)
    && (forall i :: k <= i < |ids| ==> JobReady(s, t, ids[i], base + i, now))
  }

  function WorkOne(t: System, j: JobId, job: CleanupJob, d: Deletion): System {
    Apply(if FinalGone(job, d) then LandDelete(t, j) else t, j, d.stagingOk, d.finalOk && job.finalKey.Some?)
  }

  lemma WorkOneEffect(t: System, j: JobId, job: CleanupJob, d: Deletion)
    requires j in t.jobs && t.jobs[j] == job && job.open && !job.finalGone
    ensures
      var u := WorkOne(t, j, job, d);
      && u.rows == Cleaned(t.rows, job.upload, ResultOf(job, d))
      && u.store == t.store - (if FinalGone(job, d) then {job.finalKey.value} else {})
      && (forall i :: i in t.jobs && i != j ==> i in u.jobs && u.jobs[i] == t.jobs[i])
  {}

  lemma WorkNext(
      s: System, t: System, ids: seq<UploadId>, base: JobId, now: Time, answers: map<UploadId, Deletion>, k: nat)
    requires k < |ids| && Distinct(ids) && WorkedUpTo(s, t, ids, base, now, answers, k)
    ensures
      WorkedUpTo(
        s, WorkOne(t, base + k, JobFor(ids[k], s.rows[ids[k]], now), AnswerFor(answers, ids[k])),
        ids, base, now, answers, k + 1)
  {
    var all, id := Done(ids, |ids|), ids[k];
    assert JobReady(s, t, ids[k], base + k, now);
    WorkOneEffect(t, base + k, JobFor(id, s.rows[id], now), AnswerFor(answers, id));
    assert Done(ids, k + 1) == Done(ids, k) + {id};
    assert id in all && id !in Done(ids, k);
    assert all - Done(ids, k + 1) == (all - Done(ids, k)) - {id};
    var u := WorkOne(t, base + k, JobFor(id, s.rows[id], now), AnswerFor(answers, id));
    forall i | k + 1 <= i < |ids|
      ensures JobReady(s, u, ids[i], base + i, now)
    {
      assert JobReady(s, t, ids[i], base + i, now);
    }
    WorkOffOne(s.rows, all, all - Done(ids, k), answers, now, id);
    RemoveOne(s.rows, Done(ids, k), answers, now, id);
  }

  lemma WorkOneIsARun(t: System, j: JobId, job: CleanupJob, d: Deletion, rest: seq<Event>)
    ensures
      Run(t, (if FinalGone(job, d) then [DeleteLands(j)] else [])
             + ([ApplyCleanup(j, d.stagingOk, d.finalOk && job.finalKey.Some?)] + rest))
        == Run(WorkOne(t, j, job, d), rest)
  {
    var last := ApplyCleanup(j, d.stagingOk, d.finalOk && job.finalKey.Some?);
    if FinalGone(job, d) {
      RunCons(t, DeleteLands(j), [last] + rest);
      RunCons(LandDelete(t, j), last, rest);
    } else {
      assert [] + ([last] + rest) == [last] + rest;
      RunCons(t, last, rest);
    }
  }

  lemma WorkCons(
      s: System, t: System, ids: seq<UploadId>, base: JobId, now: Time, answers: map<UploadId, Deletion>, k: nat)
    requires k < |ids| && forall i :: 0 <= i < |ids| ==> ids[i] in s.rows
    ensures Run(t, WorkEvents(s, ids, base, now, answers, k))
         == Run(WorkOne(t, base + k, JobFor(ids[k], s.rows[ids[k]], now), AnswerFor(answers, ids[k])),
                WorkEvents(s, ids, base, now, answers, k + 1))
  {
    WorkOneIsARun(t, base + k, JobFor(ids[k], s.rows[ids[k]], now), AnswerFor(answers, ids[k]),
                  WorkEvents(s, ids, base, now, answers, k + 1));
  }

  lemma {:induction false} WorkIsARun(
      s: System, t: System, ids: seq<UploadId>, base: JobId, now: Time, answers: map<UploadId, Deletion>, k: nat)
    requires k <= |ids| && Distinct(ids) && WorkedUpTo(s, t, ids, base, now, answers, k)
    requires forall i :: 0 <= i < |ids| ==> ids[i] in s.rows
    ensures WorkedUpTo(s, Run(t, WorkEvents(s, ids, base, now, answers, k)), ids, base, now, answers, |ids|)
    decreases |ids| - k
  {
    if k < |ids| {
      var job, d := JobFor(ids[k], s.rows[ids[k]], now), AnswerFor(answers, ids[k]);
      WorkNext(s, t, ids, base, now, answers, k);
      WorkCons(s, t, ids, base, now, answers, k);
      WorkIsARun(s, WorkOne(t, base + k, job, d), ids, base, now, answers, k + 1);
    }
  }

  /** In any system whose clock has reached `now`, a batch over any due rows is a run of the interleaving
      model, so whatever every run keeps, the cleanup worker's own code keeps. */
  lemma CleanupBatchIsARun(
      s: System, ids: seq<UploadId>, base: JobId, now: Time, answers: map<UploadId, Deletion>)
    requires Distinct(ids) && now <= s.clock && forall j :: j in s.jobs ==> j < base
    requires forall i :: 0 <= i < |ids| ==> ids[i] in s.rows && CleanupDue(s.rows[ids[i]], now)
    ensures
      var claimed := Run(s, ClaimEvents(ids, base, now, 0));
      var t := Run(claimed, WorkEvents(s, ids, base, now, answers, 0));
      var jobs := Done(ids, |ids|);
      && t.rows == WorkedOff(s.rows, jobs, {}, answers, now)
      && t.store == s.store - RemovedKeys(s.rows, jobs, answers, now)
  {
    assert WorkedOff(s.rows, Done(ids, 0), Done(ids, 0), map[], now) == s.rows;
    ClaimsAreARun(s, s, ids, base, now, 0);
    var claimed := Run(s, ClaimEvents(ids, base, now, 0));
    var all := Done(ids, |ids|);
    assert all - Done(ids, 0) == all && all - all == {};
    assert WorkedOff(s.rows, all, all, map[], now) == WorkedOff(s.rows, all, all, answers, now);
    assert RemovedKeys(s.rows, Done(ids, 0), answers, now) == {};
    WorkIsARun(s, claimed, ids, base, now, answers, 0);
  }
}
