/** The profile_uploads table: what each guarded statement does to one row, and the repository
    whose methods apply those statements to the table in place. */
module UploadTable {
  import opened Common
  import opened ClaimBatch

  type UploadId = int
  type UserId = int

  const MAX_ACTIVE_UPLOADS_PER_USER: nat := 5
  const MAX_UPLOAD_CREATES_PER_WINDOW: nat := 20
  const UPLOAD_CREATE_WINDOW_MS: int := HOUR_MS
  const UPLOAD_URL_TTL_MS: int := 5 * MINUTE_MS
  const FINALIZE_LEASE_MS: int := 2 * MINUTE_MS
  const CLEANUP_LEASE_MS: int := MINUTE_MS

  datatype UploadStatus = Pending | Processing | Verified | Failed

  /** Keys of the object store. A final key names its owner, its upload and the content hash. */
  datatype ObjectKey =
    | StagingKey(owner: UserId, upload: UploadId)
    | FinalKey(owner: UserId, upload: UploadId, hash: string)

  /** The columns finalKey, publicUrl, finalContentType and finalSizeBytes: every statement of the
      repository writes or clears the four together. */
  datatype FinalObject = FinalObject(key: ObjectKey, publicUrl: string, contentType: string, sizeBytes: nat)

  datatype Upload = Upload(
    userId: UserId,
    status: UploadStatus,
    stagingKey: ObjectKey,
    final: Option<FinalObject>,
    expiresAt: Time,
    processingLease: Option<Time>,
    cleanupLease: Option<Time>,
    cleanupAttempts: nat,
    failureCode: Option<string>,
    stagingDeletedAt: Option<Time>,
    finalDeletionPendingAt: Option<Time>,
    finalDeletedAt: Option<Time>,
    verifiedAt: Option<Time>,
    createdAt: Time)

  type Table = map<UploadId, Upload>

  datatype FinalizeClaim =
    | NotFound
    | AlreadyFailed(code: string)
    | AlreadyVerified(upload: Upload)
    | Expired(upload: Upload)
    | Busy(upload: Upload)
    | Claimed(upload: Upload)

  /** A statement that must match a row reports UPLOAD_STATE_CONFLICT when none matched; a matching one
      that writes an empty object violates profile_uploads_final_size_check and changes nothing. */
  datatype Preparation = Prepared | PrepareConflict | PrepareSizeRefused

  datatype Verification = VerifiedAs(upload: Upload) | StateConflict | SizeRefused

  // ---------------------------------------------------------------- one row

  predicate Open(u: Upload) { u.status == Pending || u.status == Processing }

  predicate Closed(u: Upload) { u.status == Verified || u.status == Failed }

  /** The final object is waiting for deletion. */
  predicate FinalDeletionDue(u: Upload) { u.finalDeletionPendingAt.Some? && u.finalDeletedAt.None? }

  /** The caller's lease is the one the row is being processed under. */
  predicate FenceHeld(u: Upload, lease: Time) { u.status == Processing && u.processingLease == Some(lease) }

  function PendingRow(upload: UploadId, user: UserId, expiresAt: Time, now: Time): Upload {
    Upload(user, Pending, StagingKey(user, upload), None, expiresAt, None, None, 0, None, None, None, None, None, now)
  }

  /** claimFinalize on the selected row: verified and failed rows answer without a write, expiry is
      checked before a live lease, and only an unleased row is claimed. */
  function ClaimFinalizeRow(u: Upload, now: Time, lease: Time): (FinalizeClaim, Upload) {
    if u.status == Verified then (AlreadyVerified(u), u)
    else if u.status == Failed then
      (AlreadyFailed(if u.failureCode.Some? then u.failureCode.value else "UPLOAD_FINALIZE_FAILED"), u)
    else if u.expiresAt <= now then
      var expired := u.(status := Failed, failureCode := Some("UPLOAD_EXPIRED"), processingLease := None);
      (Expired(expired), expired)
    else if u.status == Processing && u.processingLease.Some? && u.processingLease.value > now then (Busy(u), u)
    else
      var claimed := u.(
        status := Processing,
        processingLease := Some(lease),
        cleanupLease := if u.finalDeletionPendingAt.Some? then Some(lease) else u.cleanupLease);
      (Claimed(claimed), claimed)
  }

  predicate PrepareMatches(u: Upload, user: UserId, final: FinalObject, lease: Time) {
    && u.userId == user
    && FenceHeld(u, lease)
    && (u.final.None? || u.final.value.key == final.key)
    && u.finalDeletedAt.None?
  }

  function PreparedRow(u: Upload, final: FinalObject, lease: Time, now: Time): Upload {
    u.(final := Some(final),
       finalDeletionPendingAt := if u.finalDeletionPendingAt.Some? then u.finalDeletionPendingAt else Some(now),
       finalDeletedAt := None,
       cleanupLease := Some(lease))
  }

  predicate VerifyMatches(u: Upload, user: UserId, final: FinalObject, lease: Time) {
    && u.userId == user
    && FenceHeld(u, lease)
    && u.final.Some? && u.final.value.key == final.key
    && u.finalDeletionPendingAt.Some?
  }

  function VerifiedRow(u: Upload, final: FinalObject, now: Time): Upload {
    u.(status := Verified, final := Some(final), verifiedAt := Some(now), processingLease := None,
       cleanupLease := None, finalDeletionPendingAt := None, finalDeletedAt := None, failureCode := None)
  }

  function FailedRow(u: Upload, code: string): Upload {
    u.(status := Failed, failureCode := Some(code), processingLease := None)
  }

  function ReleasedRow(u: Upload): Upload {
    u.(status := Pending, processingLease := None)
  }

  function StagingDeletedRow(u: Upload, now: Time): Upload {
    u.(stagingDeletedAt := Some(now), cleanupLease := None)
  }

  predicate CleanupDue(u: Upload, now: Time) {
    && (u.cleanupLease.None? || u.cleanupLease.value <= now)
    && (|| (u.stagingDeletedAt.None?
            && (|| u.status == Failed
                || u.status == Verified
                || (u.status == Pending && u.expiresAt <= now)
                || (u.status == Processing && u.expiresAt <= now && AtOrBefore(u.processingLease, now))))
        || FinalDeletionDue(u))
  }

  function CleanupClaimedRow(u: Upload, lease: Time): Upload {
    u.(status := if Open(u) then Failed else u.status,
       failureCode := if Open(u) then Some("UPLOAD_EXPIRED") else u.failureCode,
       processingLease := None,
       cleanupLease := Some(lease),
       cleanupAttempts := u.cleanupAttempts + 1)
  }

  datatype CleanupResult = CleanupResult(
    lease: Time, stagingDeleted: bool, finalDeleted: bool, nextAttemptAt: Option<Time>, now: Time)

  function CleanedRow(u: Upload, result: CleanupResult): Upload {
    var staged := if result.stagingDeleted then u.(stagingDeletedAt := Some(result.now)) else u;
    var cleared :=
      if result.finalDeleted
      then staged.(final := None, verifiedAt := None, finalDeletedAt := Some(result.now))
      else staged;
    cleared.(cleanupLease := result.nextAttemptAt)
  }

  /** What deleting the owner's account does to an upload, first statement: only a row that is being
      processed under a lease, with its final key already written, keeps cleanup away until that lease
      expires. */
  function OwnerDeletedRow(u: Upload): Upload {
    u.(status := Failed,
       failureCode := Some("UPLOAD_OWNER_DELETED"),
       processingLease := None,
       cleanupLease :=
         if u.status == Processing && u.final.Some? && u.processingLease.Some? then u.processingLease else None,
       cleanupAttempts := 0)
  }

  /** Second statement: a final object that is still there is now to be deleted. */
  function FinalRequestedRow(u: Upload, now: Time): Upload {
    if u.final.Some? && u.finalDeletedAt.None? then u.(finalDeletionPendingAt := Some(now)) else u
  }

  function AnonymizedRow(u: Upload, now: Time): Upload {
    FinalRequestedRow(OwnerDeletedRow(u), now)
  }

  // -------------------------------------------------------- the whole table

  /** The rows the quota query looks at: the user's rows created at or after the cutoff. */
  function RecentUploads(t: Table, user: UserId, cutoff: Time): set<UploadId> {
    set id | id in t && t[id].userId == user && t[id].createdAt >= cutoff
  }

  function ActiveUploads(t: Table, user: UserId, cutoff: Time, now: Time): set<UploadId> {
    set id | id in RecentUploads(t, user, cutoff) && id in t && Open(t[id]) && t[id].expiresAt > now
  }

  datatype CreateResult = Created(upload: Upload) | ActiveLimitExceeded | RateLimitExceeded | IdTaken

  function CreatePending(t: Table, id: UploadId, user: UserId, expiresAt: Time, now: Time): (CreateResult, Table) {
    var cutoff := now - UPLOAD_CREATE_WINDOW_MS;
    if |ActiveUploads(t, user, cutoff, now)| >= MAX_ACTIVE_UPLOADS_PER_USER then (ActiveLimitExceeded, t)
    else if |RecentUploads(t, user, cutoff)| >= MAX_UPLOAD_CREATES_PER_WINDOW then (RateLimitExceeded, t)
    else if id in t then (IdTaken, t)
    else var row := PendingRow(id, user, expiresAt, now); (Created(row), t[id := row])
  }

  function Claim(t: Table, id: UploadId, user: UserId, now: Time, lease: Time): (FinalizeClaim, Table) {
    if id in t && t[id].userId == user
    then var (claim, row) := ClaimFinalizeRow(t[id], now, lease); (claim, t[id := row])
    else (NotFound, t)
  }

  function Prepare(t: Table, id: UploadId, user: UserId, final: FinalObject, lease: Time, now: Time)
    : (Preparation, Table)
  {
    if id !in t || !PrepareMatches(t[id], user, final, lease) then (PrepareConflict, t)
    else if final.sizeBytes == 0 then (PrepareSizeRefused, t)
    else (Prepared, t[id := PreparedRow(t[id], final, lease, now)])
  }

  function Verify(t: Table, id: UploadId, user: UserId, final: FinalObject, lease: Time, now: Time)
    : (Verification, Table)
  {
    if id in t && VerifyMatches(t[id], user, final, lease) then
      var row := VerifiedRow(t[id], final, now);
      if final.sizeBytes == 0 then (SizeRefused, t) else (VerifiedAs(row), t[id := row])
    else if id in t && t[id].userId == user && t[id].status == Verified
            && t[id].final.Some? && t[id].final.value.key == final.key then
      (VerifiedAs(t[id]), t)
    else
      (StateConflict, t)
  }

  function Fail(t: Table, id: UploadId, code: string, lease: Time): Table {
    if id in t && FenceHeld(t[id], lease) then t[id := FailedRow(t[id], code)] else t
  }

  function Release(t: Table, id: UploadId, lease: Time): Table {
    if id in t && FenceHeld(t[id], lease) then t[id := ReleasedRow(t[id])] else t
  }

  function StagingDeleted(t: Table, id: UploadId, now: Time): Table {
    if id in t then t[id := StagingDeletedRow(t[id], now)] else t
  }

  function DueForCleanup(t: Table, now: Time): set<UploadId> {
    set id | id in t && CleanupDue(t[id], now)
  }

  function CleanupClaimed(t: Table, selected: set<UploadId>, lease: Time): Table {
    map id | id in t :: if id in selected then CleanupClaimedRow(t[id], lease) else t[id]
  }

  function Cleaned(t: Table, id: UploadId, result: CleanupResult): Table {
    if id in t && t[id].cleanupLease == Some(result.lease) then t[id := CleanedRow(t[id], result)] else t
  }

  function Anonymized(t: Table, user: UserId, now: Time): Table {
    map id | id in t :: if t[id].userId == user then AnonymizedRow(t[id], now) else t[id]
  }

  /** Claim order: finalDeletionPendingAt (nulls last), expiresAt, createdAt, id. */
  predicate ClaimsBefore(t: Table, a: UploadId, b: UploadId) {
    && a in t && b in t
    && var x, y := t[a], t[b];
       if x.finalDeletionPendingAt != y.finalDeletionPendingAt then
         y.finalDeletionPendingAt.None?
         || (x.finalDeletionPendingAt.Some? && x.finalDeletionPendingAt.value < y.finalDeletionPendingAt.value)
       else if x.expiresAt != y.expiresAt then x.expiresAt < y.expiresAt
       else if x.createdAt != y.createdAt then x.createdAt < y.createdAt
       else a < b
  }

  function ClaimOrder(t: Table): (UploadId, UploadId) -> bool {
    (a, b) => ClaimsBefore(t, a, b)
  }

  /** With a lease in the future, what is still due after a claim is exactly what was due and left
      out, so `hasMore` is exact. */
  lemma ClaimLeavesTheRestDue(t: Table, selected: set<UploadId>, now: Time, lease: Time)
    requires selected <= DueForCleanup(t, now)
    requires lease > now
    ensures DueForCleanup(CleanupClaimed(t, selected, lease), now) == DueForCleanup(t, now) - selected
  {
    var claimed := CleanupClaimed(t, selected, lease);
    forall id | id in t
      ensures id in DueForCleanup(claimed, now) <==> id in DueForCleanup(t, now) - selected
    {
      assert CleanupDue(claimed[id], now) <==> CleanupDue(t[id], now) && id !in selected;
    }
  }

  // ------------------------------------------------------- how rows evolve

  /** What every statement keeps of a row: owner and times stay, a closed row is not reopened, a failed row
      stays failed with its deletion mark and gets no other object, a verified row keeps its object. */
  predicate RowEvolves(u: Upload, v: Upload) {
    && v.userId == u.userId && v.createdAt == u.createdAt && v.expiresAt == u.expiresAt
    && (Open(v) ==> Open(u))
    && (u.status == Failed ==>
          && v.status == Failed && (v.final == u.final || v.final.None?)
          && (u.finalDeletionPendingAt.Some? ==> v.finalDeletionPendingAt.Some?))
    && (u.status == Verified && v.status == Verified ==> v.final == u.final)
  }

  ghost predicate Evolves(t: Table, u: Table) {
    forall id :: id in t ==> id in u && RowEvolves(t[id], u[id])
  }

  lemma ClaimEvolves(t: Table, id: UploadId, user: UserId, now: Time, lease: Time)
    ensures Evolves(t, Claim(t, id, user, now, lease).1)
  {}

  lemma FinalizerEvolves(
      t: Table, id: UploadId, user: UserId, final: FinalObject, code: string, lease: Time, now: Time)
    ensures Evolves(t, Prepare(t, id, user, final, lease, now).1)
    ensures Evolves(t, Verify(t, id, user, final, lease, now).1)
    ensures Evolves(t, Fail(t, id, code, lease))
    ensures Evolves(t, Release(t, id, lease))
    ensures Evolves(t, StagingDeleted(t, id, now))
  {}

  lemma CleanupEvolves(t: Table, id: UploadId, lease: Time, result: CleanupResult)
    ensures id in t ==> Evolves(t, t[id := CleanupClaimedRow(t[id], lease)])
    ensures (result.finalDeleted && id in t ==> t[id].status == Failed) ==> Evolves(t, Cleaned(t, id, result))
  {}

  lemma AnonymizedEvolves(t: Table, user: UserId, now: Time)
    ensures Evolves(t, Anonymized(t, user, now))
  {}

  // ------------------------------------------------- what the statements owe their callers

  /** An upload is created if and only if the user has fewer than five live ones, made fewer than twenty
      within the hour and the id is free; each refusal names its cause and changes nothing. */
  ghost predicate CreateAnswer(
    t: Table, t': Table, id: UploadId, user: UserId, expiresAt: Time, now: Time, result: CreateResult)
  {
    var recent := set i | i in t && t[i].userId == user && now - HOUR_MS <= t[i].createdAt;
    var live := set i | i in recent && (t[i].status == Pending || t[i].status == Processing) && now < t[i].expiresAt;
    && (result.ActiveLimitExceeded? <==> 5 <= |live|)
    && (result.RateLimitExceeded? <==> |live| < 5 && 20 <= |recent|)
    && (result.Created? <==> |live| < 5 && |recent| < 20 && id !in t)
    && (!result.Created? ==> t' == t)
    && (result.Created? ==> t' == t[id := result.upload] && IsFresh(result.upload, id, user, expiresAt, now))
  }

  predicate IsFresh(u: Upload, id: UploadId, user: UserId, expiresAt: Time, now: Time) {
    && u.userId == user && u.status == Pending && u.stagingKey == StagingKey(user, id)
    && u.createdAt == now && u.expiresAt == expiresAt && u.cleanupAttempts == 0
    && u.final.None? && u.processingLease.None? && u.cleanupLease.None? && u.failureCode.None?
    && u.stagingDeletedAt.None? && u.finalDeletionPendingAt.None? && u.finalDeletedAt.None? && u.verifiedAt.None?
  }

  lemma CreateAnswers(t: Table, id: UploadId, user: UserId, expiresAt: Time, now: Time)
    ensures
      var (result, t') := CreatePending(t, id, user, expiresAt, now);
      CreateAnswer(t, t', id, user, expiresAt, now, result)
  {
    var cutoff := now - UPLOAD_CREATE_WINDOW_MS;
    var recent := set i | i in t && t[i].userId == user && now - HOUR_MS <= t[i].createdAt;
    assert RecentUploads(t, user, cutoff) == recent;
    var live := set i | i in recent && (t[i].status == Pending || t[i].status == Processing) && now < t[i].expiresAt;
    forall i
      ensures i in ActiveUploads(t, user, cutoff, now) <==> i in live
    {
      assert i in recent ==> (i in live <==> Open(t[i]) && now < t[i].expiresAt);
    }
    assert ActiveUploads(t, user, cutoff, now) == live;
  }

  /** The user's row is being processed under the lease. */
  predicate UnderLease(t: Table, id: UploadId, user: UserId, lease: Time) {
    id in t && t[id].userId == user && t[id].status == Processing && t[id].processingLease == Some(lease)
  }

  /** A final object is put on record only by the lease holder, only if no other object is on record and
      none was deleted, and never an empty one; it is then marked for deletion and shielded by the lease. */
  predicate PrepareAnswer(
    t: Table, t': Table, id: UploadId, user: UserId, final: FinalObject, lease: Time, now: Time, result: Preparation)
  {
    var fits := UnderLease(t, id, user, lease) && t[id].finalDeletedAt.None?
                && (t[id].final.Some? ==> t[id].final.value.key == final.key);
    && (result == Prepared <==> fits && 0 < final.sizeBytes)
    && (result == PrepareSizeRefused <==> fits && final.sizeBytes == 0)
    && (result != Prepared ==> t' == t)
    && (result == Prepared ==>
          && id in t' && t' == t[id := t'[id]]
          && t'[id] == t[id].(final := Some(final), cleanupLease := Some(lease),
                              finalDeletionPendingAt := t'[id].finalDeletionPendingAt)
          && t'[id].finalDeletionPendingAt
             == if t[id].finalDeletionPendingAt.Some? then t[id].finalDeletionPendingAt else Some(now))
  }

  lemma PrepareAnswers(t: Table, id: UploadId, user: UserId, final: FinalObject, lease: Time, now: Time)
    ensures
      var (result, t') := Prepare(t, id, user, final, lease, now);
      PrepareAnswer(t, t', id, user, final, lease, now, result)
  {}

  /** The answer is a success if and only if the user's row is now verified with that object's key. A row
      becomes verified only under the lease, with that object prepared and not empty. */
  predicate VerifyAnswer(
    t: Table, t': Table, id: UploadId, user: UserId, final: FinalObject, lease: Time, now: Time, result: Verification)
  {
    var fits := UnderLease(t, id, user, lease) && t[id].final.Some? && t[id].final.value.key == final.key
                && t[id].finalDeletionPendingAt.Some?;
    && (result.VerifiedAs? <==>
          && id in t' && t'[id].userId == user && t'[id].status == Verified
          && t'[id].final.Some? && t'[id].final.value.key == final.key)
    && (result.VerifiedAs? ==> result.upload == t'[id])
    && (result == SizeRefused <==> fits && final.sizeBytes == 0)
    && (!(fits && 0 < final.sizeBytes) ==> t' == t)
    && (fits && 0 < final.sizeBytes ==>
          && id in t' && t' == t[id := t'[id]]
          && t'[id] == t[id].(status := Verified, final := Some(final), verifiedAt := Some(now), processingLease := None,
                              cleanupLease := None, finalDeletionPendingAt := None, finalDeletedAt := None,
                              failureCode := None))
  }

  lemma VerifyAnswers(t: Table, id: UploadId, user: UserId, final: FinalObject, lease: Time, now: Time)
    ensures
      var (result, t') := Verify(t, id, user, final, lease, now);
      VerifyAnswer(t, t', id, user, final, lease, now, result)
  {}

  /** A cleanup claim leaves a due row out only if it took as many as it may, each of them more urgent: final
      objects waiting for deletion first, the longest waiting first, then by expiry, creation and id. */
  ghost predicate CleanupClaimAnswer(t: Table, jobs: set<UploadId>, now: Time, limit: nat) {
    && |jobs| <= limit
    && (forall id :: id in jobs ==> id in t && CleanupDue(t[id], now))
    && (forall id :: id in t && id !in jobs && CleanupDue(t[id], now) ==>
          |jobs| == limit && forall job :: job in jobs ==> job in t && MoreUrgent(t[job], job, t[id], id))
  }

  predicate MoreUrgent(u: Upload, a: UploadId, v: Upload, b: UploadId) {
    var p, q := u.finalDeletionPendingAt, v.finalDeletionPendingAt;
    || (p.Some? && q.None?)
    || (p.Some? && q.Some? && p.value < q.value)
    || (p == q && u.expiresAt < v.expiresAt)
    || (p == q && u.expiresAt == v.expiresAt && u.createdAt < v.createdAt)
    || (p == q && u.expiresAt == v.expiresAt && u.createdAt == v.createdAt && a < b)
  }

  lemma CleanupClaimAnswers(t: Table, jobs: set<UploadId>, now: Time, limit: nat)
    requires IsFirstOf(jobs, DueForCleanup(t, now), ClaimOrder(t), limit)
    ensures CleanupClaimAnswer(t, jobs, now, limit)
  {
    forall id | id in t && id !in jobs && CleanupDue(t[id], now)
      ensures |jobs| == limit && forall job :: job in jobs ==> job in t && MoreUrgent(t[job], job, t[id], id)
    {
      assert id in DueForCleanup(t, now) - jobs;
      assert forall job :: job in jobs ==> ClaimOrder(t)(job, id);
    }
  }

  /** The owner's uploads all fail with attempts reset and any object still there up for deletion; only a row
      with an object on record that is being processed keeps cleanup away, until its lease ends. */
  ghost predicate OwnerGone(t: Table, t': Table, user: UserId, now: Time) {
    && t'.Keys == t.Keys
    && (forall id :: id in t && t[id].userId != user ==> t'[id] == t[id])
    && (forall id :: id in t && t[id].userId == user ==>
          var u, v := t[id], t'[id];
          && v == u.(status := Failed, failureCode := Some("UPLOAD_OWNER_DELETED"), processingLease := None,
                     cleanupAttempts := 0, cleanupLease := v.cleanupLease,
                     finalDeletionPendingAt := v.finalDeletionPendingAt)
          && v.cleanupLease == (if u.status == Processing && u.final.Some? then u.processingLease else None)
          && v.finalDeletionPendingAt
             == if u.final.Some? && u.finalDeletedAt.None? then Some(now) else u.finalDeletionPendingAt)
  }

  lemma AnonymizedAnswers(t: Table, user: UserId, now: Time)
    ensures OwnerGone(t, Anonymized(t, user, now), user, now)
  {}

  // ------------------------------------------------------------ the repository

  /** The object store, as far as final objects go. */
  class ObjectStore {
    var keys: set<ObjectKey>

    constructor ()
      ensures keys == {}
    {
      keys := {};
    }
  }

  class UploadRepository {
    var rows: Table

    constructor ()
      ensures rows == map[]
    {
      rows := map[];
    }

    method CreatePendingUpload(id: UploadId, user: UserId, expiresAt: Time, now: Time) returns (result: CreateResult)
      modifies this
      ensures (result, rows) == CreatePending(old(rows), id, user, expiresAt, now)
      ensures CreateAnswer(old(rows), rows, id, user, expiresAt, now, result)
    {
      CreateAnswers(rows, id, user, expiresAt, now);
      var cutoff := now - UPLOAD_CREATE_WINDOW_MS;
      var recent := RecentUploads(rows, user, cutoff);
      var active := set id | id in recent && id in rows && Open(rows[id]) && rows[id].expiresAt > now;
      if |active| >= MAX_ACTIVE_UPLOADS_PER_USER {
        return ActiveLimitExceeded;
      }
      if |recent| >= MAX_UPLOAD_CREATES_PER_WINDOW {
        return RateLimitExceeded;
      }
      if id in rows {
        return IdTaken;
      }
      rows := rows[id := PendingRow(id, user, expiresAt, now)];
      return Created(rows[id]);
    }

    method ClaimFinalize(id: UploadId, user: UserId, now: Time, lease: Time) returns (claim: FinalizeClaim)
      modifies this
      ensures (claim, rows) == Claim(old(rows), id, user, now, lease)
    {
      if id !in rows || rows[id].userId != user {
        return NotFound;
      }
      var upload := rows[id];
      assert rows[id := upload] == rows;
      if upload.status == Verified {
        return AlreadyVerified(upload);
      }
      if upload.status == Failed {
        return AlreadyFailed(if upload.failureCode.Some? then upload.failureCode.value else "UPLOAD_FINALIZE_FAILED");
      }
      if upload.expiresAt <= now {
        rows := rows[id := FailedRow(upload, "UPLOAD_EXPIRED")];
        return Expired(rows[id]);
      }
      if upload.status == Processing && upload.processingLease.Some? && upload.processingLease.value > now {
        return Busy(upload);
      }
      var claimed := upload.(status := Processing, processingLease := Some(lease));
      if upload.finalDeletionPendingAt.Some? {
        claimed := claimed.(cleanupLease := Some(lease));
      }
      rows := rows[id := claimed];
      return Claimed(claimed);
    }

    method PrepareFinalObject(id: UploadId, user: UserId, final: FinalObject, lease: Time, now: Time)
      returns (result: Preparation)
      modifies this
      ensures (result, rows) == Prepare(old(rows), id, user, final, lease, now)
      ensures PrepareAnswer(old(rows), rows, id, user, final, lease, now, result)
    {
      PrepareAnswers(rows, id, user, final, lease, now);
      if id !in rows || !PrepareMatches(rows[id], user, final, lease) {
        return PrepareConflict;
      }
      if final.sizeBytes == 0 {
        return PrepareSizeRefused;
      }
      rows := rows[id := PreparedRow(rows[id], final, lease, now)];
      return Prepared;
    }

    method MarkVerified(id: UploadId, user: UserId, final: FinalObject, lease: Time, now: Time)
      returns (result: Verification)
      modifies this
      ensures (result, rows) == Verify(old(rows), id, user, final, lease, now)
      ensures VerifyAnswer(old(rows), rows, id, user, final, lease, now, result)
    {
      VerifyAnswers(rows, id, user, final, lease, now);
      if id in rows && VerifyMatches(rows[id], user, final, lease) {
        if final.sizeBytes == 0 {
          return SizeRefused;
        }
        rows := rows[id := VerifiedRow(rows[id], final, now)];
        return VerifiedAs(rows[id]);
      }
      if id in rows && rows[id].userId == user {
        var existing := rows[id];
        if existing.status == Verified && existing.final.Some? && existing.final.value.key == final.key {
          return VerifiedAs(existing);
        }
      }
      return StateConflict;
    }

    method MarkFailed(id: UploadId, code: string, lease: Time)
      modifies this
      ensures rows == Fail(old(rows), id, code, lease)
      ensures if id in old(rows) && UnderLease(old(rows), id, old(rows)[id].userId, lease)
              then rows == old(rows)[id := old(rows)[id].(status := Failed, failureCode := Some(code), processingLease := None)]
              else rows == old(rows)
    {
      if id in rows && FenceHeld(rows[id], lease) {
        rows := rows[id := FailedRow(rows[id], code)];
      }
    }

    method ReleaseFinalizeLease(id: UploadId, lease: Time)
      modifies this
      ensures rows == Release(old(rows), id, lease)
      ensures if id in old(rows) && UnderLease(old(rows), id, old(rows)[id].userId, lease)
              then rows == old(rows)[id := old(rows)[id].(status := Pending, processingLease := None)]
              else rows == old(rows)
    {
      if id in rows && FenceHeld(rows[id], lease) {
        rows := rows[id := ReleasedRow(rows[id])];
      }
    }

    method MarkStagingDeleted(id: UploadId, now: Time)
      modifies this
      ensures rows == StagingDeleted(old(rows), id, now)
    {
      if id in rows {
        rows := rows[id := StagingDeletedRow(rows[id], now)];
      }
    }

    /** The claim transaction: pick the first due rows, lease them, and report whether more are due. */
    method ClaimCleanupBatch(now: Time, lease: Time, limit: nat) returns (jobs: set<UploadId>, hasMore: bool)
      modifies this
      ensures IsFirstOf(jobs, DueForCleanup(old(rows), now), ClaimOrder(old(rows)), limit)
      ensures rows == CleanupClaimed(old(rows), jobs, lease)
      ensures hasMore <==> jobs != {} && DueForCleanup(rows, now) != {}
      ensures CleanupClaimAnswer(old(rows), jobs, now, limit)
    {
      jobs := SelectFirst(DueForCleanup(rows, now), ClaimOrder(rows), limit);
      CleanupClaimAnswers(rows, jobs, now, limit);
      if jobs == {} {
        assert rows == CleanupClaimed(rows, jobs, lease);
        hasMore := false;
        return;
      }
      rows := CleanupClaimed(rows, jobs, lease);
      hasMore := DueForCleanup(rows, now) != {};
    }

    method ApplyCleanupResult(id: UploadId, result: CleanupResult)
      modifies this
      ensures rows == Cleaned(old(rows), id, result)
    {
      if id in rows && rows[id].cleanupLease == Some(result.lease) {
        var row := rows[id];
        if result.stagingDeleted {
          row := row.(stagingDeletedAt := Some(result.now));
        }
        if result.finalDeleted {
          row := row.(final := None, verifiedAt := None, finalDeletedAt := Some(result.now));
        }
        rows := rows[id := row.(cleanupLease := result.nextAttemptAt)];
      }
    }

    /** The two upload statements of the account anonymisation transaction. */
    method AnonymizeOwner(user: UserId, now: Time)
      modifies this
      ensures rows == Anonymized(old(rows), user, now)
      ensures OwnerGone(old(rows), rows, user, now)
    {
      AnonymizedAnswers(rows, user, now);
      rows := map id | id in rows :: if rows[id].userId == user then OwnerDeletedRow(rows[id]) else rows[id];
      rows := map id | id in rows :: if rows[id].userId == user then FinalRequestedRow(rows[id], now) else rows[id];
      assert forall id :: id in rows ==> rows[id] == Anonymized(old(rows), user, now)[id];
    }
  }
}
