/** finalizeUpload as the service writes it, call after call, tied to the run of the interleaving model
    that it is when nothing else intervenes. */
module UploadService {
  import opened Common
  import opened UploadTable
  import opened UploadPipeline

  /** What reading and normalising the staging object came to. */
  datatype ReadOutcome = Image(hash: string, publicUrl: string, sizeBytes: nat) | Invalid(code: string) | Unavailable

  /** A failed put may or may not have reached the store. */
  datatype PutOutcome = Stored | PutFailed(landed: bool)

  datatype FinalizeResult = Payload(upload: Upload) | FinalizeError(code: string)

  function StoredRun(w: WorkerId, stagingGone: bool): seq<Event> {
    [PutLands(w)] + ([PutAcknowledged(w)] + ([PublishVerified(w)] + ([FinishStaging(w, stagingGone)] + [])))
  }

  function PutRun(w: WorkerId, put: PutOutcome, stagingGone: bool): seq<Event> {
    match put
    case Stored => StoredRun(w, stagingGone)
    case PutFailed(landed) =>
      if landed then [PutLands(w)] + ([PutRejected(w)] + []) else [PutRejected(w)] + []
  }

  function ReadRun(w: WorkerId, read: ReadOutcome, put: PutOutcome, stagingGone: bool): seq<Event> {
    match read
    case Invalid(code) => [ReadRejected(w, code)] + []
    case Unavailable => [ReadUnavailable(w)] + []
    case Image(hash, publicUrl, sizeBytes) =>
      [PrepareFinal(w, hash, publicUrl, sizeBytes)] + PutRun(w, put, stagingGone)
  }

  /** The steps of one finalizeUpload call; steps that an early exit skips are disabled and do nothing. */
  function FinalizeRun(
      w: WorkerId, id: UploadId, user: UserId, now: Time, read: ReadOutcome, put: PutOutcome, stagingGone: bool): seq<Event>
  {
    [BeginFinalize(w, id, user, now)] + ReadRun(w, read, put, stagingGone)
  }

  function Fate(claim: FinalizeClaim): FinalizeResult {
    match claim
    case AlreadyVerified(upload) => Payload(upload)
    case AlreadyFailed(code) => FinalizeError(code)
    case Expired(_) => FinalizeError("UPLOAD_EXPIRED")
    case Busy(_) => FinalizeError("UPLOAD_PROCESSING")
    case _ => FinalizeError("UPLOAD_NOT_FOUND")
  }

  /** An empty object violates a check constraint, and the database's error goes to the caller. */
  function PrepareError(result: Preparation): FinalizeResult {
    FinalizeError(if result.PrepareSizeRefused? then "profile_uploads_final_size_check" else "UPLOAD_STATE_CONFLICT")
  }

  function VerifyError(result: Verification): FinalizeResult {
    FinalizeError(if result.SizeRefused? then "profile_uploads_final_size_check" else "UPLOAD_STATE_CONFLICT")
  }

  datatype Outcome = Outcome(result: FinalizeResult, rows: Table, store: set<ObjectKey>)

  /** From the put on: `rows` is the table after prepare. */
  function PutAndPublish(
      rows: Table, store: set<ObjectKey>, id: UploadId, user: UserId, now: Time, final: FinalObject,
      put: PutOutcome, stagingGone: bool): Outcome
  {
    var lease := now + FINALIZE_LEASE_MS;
    match put
    case PutFailed(landed) =>
      Outcome(FinalizeError("UPLOAD_FINAL_WRITE_FAILED"), Release(rows, id, lease),
              if landed then store + {final.key} else store)
    case Stored =>
      var (verified, rows') := Verify(rows, id, user, final, lease, now);
      if !verified.VerifiedAs? then Outcome(VerifyError(verified), rows', store + {final.key})
      else Outcome(Payload(verified.upload), if stagingGone then StagingDeleted(rows', id, now) else rows',
                   store + {final.key})
  }

  function AfterClaim(
      rows: Table, store: set<ObjectKey>, id: UploadId, user: UserId, now: Time, read: ReadOutcome,
      put: PutOutcome, stagingGone: bool): Outcome
  {
    var lease := now + FINALIZE_LEASE_MS;
    match read
    case Invalid(code) => Outcome(FinalizeError(code), Fail(rows, id, code, lease), store)
    case Unavailable => Outcome(FinalizeError("UPLOAD_OBJECT_UNAVAILABLE"), Release(rows, id, lease), store)
    case Image(hash, publicUrl, sizeBytes) =>
      var final := FinalObject(FinalKey(user, id, hash), publicUrl, "image/jpeg", sizeBytes);
      var (prepared, rows') := Prepare(rows, id, user, final, lease, now);
      if !prepared.Prepared? then Outcome(PrepareError(prepared), rows', store)
      else PutAndPublish(rows', store, id, user, now, final, put, stagingGone)
  }

  function Finalized(
      rows: Table, store: set<ObjectKey>, id: UploadId, user: UserId, now: Time, read: ReadOutcome,
      put: PutOutcome, stagingGone: bool): Outcome
  {
    var lease := now + FINALIZE_LEASE_MS;
    var (claim, claimed) := Claim(rows, id, user, now, lease);
    if !claim.Claimed? then Outcome(Fate(claim), claimed, store)
    else AfterClaim(claimed, store, id, user, now, read, put, stagingGone)
  }

  // ------------------------------------------------------ what a call owes its caller

  /** A free row's call: what the store answered decides the answer and what becomes of the row. A claim
      shields a prepared row from cleanup for as long as its own lease. */
  predicate FreeRowAnswer(
    u: Upload, v: Upload, id: UploadId, store: set<ObjectKey>, store': set<ObjectKey>, now: Time, read: ReadOutcome,
    put: PutOutcome, stagingGone: bool, result: FinalizeResult)
  {
    var shield := if u.finalDeletionPendingAt.Some? then Some(now + 2 * MINUTE_MS) else u.cleanupLease;
    match read
    case Invalid(code) =>
      && result == FinalizeError(code) && store' == store
      && v == u.(status := Failed, failureCode := Some(code), processingLease := None, cleanupLease := shield)
    case Unavailable =>
      && result == FinalizeError("UPLOAD_OBJECT_UNAVAILABLE") && store' == store
      && v == u.(status := Pending, processingLease := None, cleanupLease := shield)
    case Image(hash, publicUrl, sizeBytes) =>
      var key := FinalKey(u.userId, id, hash);
      if (u.final.Some? && u.final.value.key != key) || u.finalDeletedAt.Some? || sizeBytes == 0 then
        && result == FinalizeError(
             if (u.final.Some? && u.final.value.key != key) || u.finalDeletedAt.Some?
             then "UPLOAD_STATE_CONFLICT" else "profile_uploads_final_size_check")
        && store' == store
        && v == u.(status := Processing, processingLease := Some(now + 2 * MINUTE_MS), cleanupLease := shield)
      else
        PutAnswer(u, v, FinalObject(key, publicUrl, "image/jpeg", sizeBytes), store, store', now, put, stagingGone, result)
  }

  /** The put is what publishes: a failed one leaves the row open, its key on record and marked for deletion. */
  predicate PutAnswer(
    u: Upload, v: Upload, final: FinalObject, store: set<ObjectKey>, store': set<ObjectKey>, now: Time,
    put: PutOutcome, stagingGone: bool, result: FinalizeResult)
  {
    match put
    case PutFailed(landed) =>
      && result == FinalizeError("UPLOAD_FINAL_WRITE_FAILED")
      && store' == (if landed then store + {final.key} else store)
      && v == u.(status := Pending, processingLease := None, final := Some(final),
                 cleanupLease := Some(now + 2 * MINUTE_MS),
                 finalDeletionPendingAt :=
                   if u.finalDeletionPendingAt.Some? then u.finalDeletionPendingAt else Some(now))
    case Stored =>
      && store' == store + {final.key}
      && v == u.(status := Verified, final := Some(final), verifiedAt := Some(now), processingLease := None,
                 cleanupLease := None, finalDeletionPendingAt := None, failureCode := None,
                 stagingDeletedAt := if stagingGone then Some(now) else u.stagingDeletedAt)
      && result == Payload(v.(stagingDeletedAt := u.stagingDeletedAt))
  }

  /** The caller's row before and after, and the answer. */
  predicate RowAnswer(
    u: Upload, v: Upload, id: UploadId, store: set<ObjectKey>, store': set<ObjectKey>, now: Time, read: ReadOutcome,
    put: PutOutcome, stagingGone: bool, result: FinalizeResult)
  {
    if u.status == Verified then result == Payload(u) && v == u && store' == store
    else if u.status == Failed then
      && v == u && store' == store
      && result == FinalizeError(match u.failureCode case Some(code) => code case None => "UPLOAD_FINALIZE_FAILED")
    else if u.expiresAt <= now then
      && result == FinalizeError("UPLOAD_EXPIRED") && store' == store
      && v == u.(status := Failed, failureCode := Some("UPLOAD_EXPIRED"), processingLease := None)
    else if u.status == Processing && u.processingLease.Some? && now < u.processingLease.value then
      result == FinalizeError("UPLOAD_PROCESSING") && v == u && store' == store
    else FreeRowAnswer(u, v, id, store, store', now, read, put, stagingGone, result)
  }

  ghost predicate FinalizeAnswer(
    rows: Table, rows': Table, id: UploadId, user: UserId, store: set<ObjectKey>, store': set<ObjectKey>, now: Time,
    read: ReadOutcome, put: PutOutcome, stagingGone: bool, result: FinalizeResult)
  {
    && rows'.Keys == rows.Keys
    && (forall other :: other in rows && other != id ==> rows'[other] == rows[other])
    && if id in rows && rows[id].userId == user
       then RowAnswer(rows[id], rows'[id], id, store, store', now, read, put, stagingGone, result)
       else result == FinalizeError("UPLOAD_NOT_FOUND") && rows' == rows && store' == store
  }

  lemma PutAnswers(
      rows: Table, store: set<ObjectKey>, id: UploadId, u: Upload, now: Time, final: FinalObject, put: PutOutcome,
      stagingGone: bool)
    requires id in rows && final.sizeBytes > 0
    requires rows[id] == PreparedRow(u, final, now + FINALIZE_LEASE_MS, now) && FenceHeld(u, now + FINALIZE_LEASE_MS)
    ensures
      var o := PutAndPublish(rows, store, id, u.userId, now, final, put, stagingGone);
      id in o.rows && o.rows == rows[id := o.rows[id]]
      && (u.finalDeletedAt.None? ==> PutAnswer(u, o.rows[id], final, store, o.store, now, put, stagingGone, o.result))
  {}

  lemma FreeRowAnswers(
      rows: Table, store: set<ObjectKey>, id: UploadId, u: Upload, now: Time, read: ReadOutcome, put: PutOutcome,
      stagingGone: bool)
    requires Open(u) && now < u.expiresAt
    requires !(u.status == Processing && u.processingLease.Some? && now < u.processingLease.value)
    requires id in rows && rows[id] == ClaimFinalizeRow(u, now, now + FINALIZE_LEASE_MS).1
    ensures
      var o := AfterClaim(rows, store, id, u.userId, now, read, put, stagingGone);
      id in o.rows && o.rows == rows[id := o.rows[id]]
      && FreeRowAnswer(u, o.rows[id], id, store, o.store, now, read, put, stagingGone, o.result)
  {
    if read.Image? {
      var lease := now + FINALIZE_LEASE_MS;
      var final := FinalObject(FinalKey(u.userId, id, read.hash), read.publicUrl, "image/jpeg", read.sizeBytes);
      var (prepared, rows') := Prepare(rows, id, u.userId, final, lease, now);
      if prepared.Prepared? {
        PutAnswers(rows', store, id, rows[id], now, final, put, stagingGone);
      }
    }
  }

  /** Whatever a call finds and whatever the store answers, the answer names the cause, and the caller's
      row and the store end as it says. */
  lemma FinalizeAnswers(
      rows: Table, store: set<ObjectKey>, id: UploadId, user: UserId, now: Time, read: ReadOutcome, put: PutOutcome,
      stagingGone: bool)
    ensures
      var o := Finalized(rows, store, id, user, now, read, put, stagingGone);
      FinalizeAnswer(rows, o.rows, id, user, store, o.store, now, read, put, stagingGone, o.result)
  {
    var (claim, claimed) := Claim(rows, id, user, now, now + FINALIZE_LEASE_MS);
    if claim.Claimed? {
      FreeRowAnswers(claimed, store, id, rows[id], now, read, put, stagingGone);
    }
  }

  /** A call succeeds if and only if it leaves the caller's row verified; the answer then shows the row's
      object, and the object is in the store. */
  lemma PayloadIffVerified(
      rows: Table, store: set<ObjectKey>, id: UploadId, user: UserId, now: Time, read: ReadOutcome, put: PutOutcome,
      stagingGone: bool, result: FinalizeResult, rows': Table, store': set<ObjectKey>)
    requires FinalizeAnswer(rows, rows', id, user, store, store', now, read, put, stagingGone, result)
    ensures result.Payload? <==> id in rows' && rows'[id].userId == user && rows'[id].status == Verified
    ensures result.Payload? ==> result.upload.final == rows'[id].final
    ensures
      (id in rows && rows[id].status == Verified ==> rows[id].final.Some? && rows[id].final.value.key in store) ==>
        result.Payload? ==> rows'[id].final.Some? && rows'[id].final.value.key in store'
    ensures store <= store'
  {}

  predicate WorkerStep(e: Event, w: WorkerId) {
    (e.ReadRejected? || e.ReadUnavailable? || e.PrepareFinal? || e.PutLands? || e.PutAcknowledged?
     || e.PutRejected? || e.PublishVerified? || e.FinishStaging?) && e.worker == w
  }

  lemma IdleStep(s: System, e: Event, w: WorkerId)
    requires w in s.finalizers ==> s.finalizers[w].phase == Ended && s.finalizers[w].final.None?
    requires WorkerStep(e, w)
    ensures Step(s, e) == s
  {}

  /** Once the worker is absent or has ended unprepared, its remaining steps do nothing. */
  lemma {:induction false} IdleRun(s: System, es: seq<Event>, w: WorkerId)
    requires w in s.finalizers ==> s.finalizers[w].phase == Ended && s.finalizers[w].final.None?
    requires forall i :: 0 <= i < |es| ==> WorkerStep(es[i], w)
    ensures Run(s, es) == s
    decreases |es|
  {
    if es != [] {
      IdleStep(s, es[0], w);
      IdleRun(s, es[1..], w);
    }
  }

  lemma ReadRunIsWorkerSteps(w: WorkerId, read: ReadOutcome, put: PutOutcome, stagingGone: bool)
    ensures forall i :: 0 <= i < |ReadRun(w, read, put, stagingGone)| ==>
      WorkerStep(ReadRun(w, read, put, stagingGone)[i], w)
  {}

  predicate AtPut(s: System, w: WorkerId, final: FinalObject) {
    && InPhase(s, w, Putting) && s.finalizers[w].final == Some(final)
    && s.finalizers[w].lease == s.finalizers[w].now + FINALIZE_LEASE_MS
  }

  function AfterPublish(s: System, w: WorkerId): System
    requires InPhase(s, w, Putting) && s.finalizers[w].final.Some?
  {
    Publish(Advance(Land(s, w), w, Acknowledged), w)
  }

  /** The table and the store of a state are those of an outcome. */
  predicate Agrees(t: System, o: Outcome) { t.rows == o.rows && t.store == o.store }

  lemma PublishCons(s: System, w: WorkerId, rest: seq<Event>)
    requires InPhase(s, w, Putting) && s.finalizers[w].final.Some?
    ensures Run(s, [PutLands(w)] + ([PutAcknowledged(w)] + ([PublishVerified(w)] + rest))) == Run(AfterPublish(s, w), rest)
  {
    var s1 := Land(s, w);
    RunCons(Advance(s1, w, Acknowledged), PublishVerified(w), rest);
    RunCons(s1, PutAcknowledged(w), [PublishVerified(w)] + rest);
    RunCons(s, PutLands(w), [PutAcknowledged(w)] + ([PublishVerified(w)] + rest));
  }

  /** What a stored put comes to before the staging object is dealt with. */
  lemma PublishedState(s: System, w: WorkerId, final: FinalObject)
    requires AtPut(s, w, final)
    ensures
      var f, t := s.finalizers[w], AfterPublish(s, w);
      var (verified, rows) := Verify(s.rows, f.upload, f.user, final, f.lease, f.now);
      && t.rows == rows && t.store == s.store + {final.key} && w in t.finalizers
      && t.finalizers[w].upload == f.upload && t.finalizers[w].now == f.now
      && (InPhase(t, w, Published) <==> verified.VerifiedAs?)
  {}

  lemma StagingStep(s: System, w: WorkerId, stagingGone: bool)
    requires w in s.finalizers
    ensures
      var t := Step(s, FinishStaging(w, stagingGone));
      && t.store == s.store
      && t.rows == if InPhase(s, w, Published) && stagingGone
                   then StagingDeleted(s.rows, s.finalizers[w].upload, s.finalizers[w].now) else s.rows
  {}

  lemma StoredIsARun(s: System, w: WorkerId, final: FinalObject, stagingGone: bool)
    requires AtPut(s, w, final)
    ensures
      var f := s.finalizers[w];
      Agrees(Run(s, StoredRun(w, stagingGone)),
             PutAndPublish(s.rows, s.store, f.upload, f.user, f.now, final, Stored, stagingGone))
  {
    PublishCons(s, w, [FinishStaging(w, stagingGone)] + []);
    RunCons(AfterPublish(s, w), FinishStaging(w, stagingGone), []);
    PublishedState(s, w, final);
    StagingStep(AfterPublish(s, w), w, stagingGone);
  }

  lemma FailedPutIsARun(s: System, w: WorkerId, final: FinalObject, landed: bool, stagingGone: bool)
    requires AtPut(s, w, final)
    ensures
      var f := s.finalizers[w];
      Agrees(Run(s, PutRun(w, PutFailed(landed), stagingGone)),
             PutAndPublish(s.rows, s.store, f.upload, f.user, f.now, final, PutFailed(landed), stagingGone))
  {
    if landed {
      RunCons(s, PutLands(w), [PutRejected(w)] + []);
      RunCons(Land(s, w), PutRejected(w), []);
    } else {
      RunCons(s, PutRejected(w), []);
    }
  }

  predicate AtRead(s: System, w: WorkerId) {
    InPhase(s, w, Reading) && s.finalizers[w].final.None?
    && s.finalizers[w].lease == s.finalizers[w].now + FINALIZE_LEASE_MS
  }

  lemma ImageIsARun(
      s: System, w: WorkerId, hash: string, publicUrl: string, sizeBytes: nat, put: PutOutcome, stagingGone: bool)
    requires AtRead(s, w)
    ensures
      var f, read := s.finalizers[w], Image(hash, publicUrl, sizeBytes);
      Agrees(Run(s, ReadRun(w, read, put, stagingGone)),
             AfterClaim(s.rows, s.store, f.upload, f.user, f.now, read, put, stagingGone))
  {
    var final := ObjectFor(s.finalizers[w], hash, publicUrl, sizeBytes);
    var s1 := PrepareStep(s, w, final);
    RunCons(s, PrepareFinal(w, hash, publicUrl, sizeBytes), PutRun(w, put, stagingGone));
    if InPhase(s1, w, Ended) {
      ReadRunIsWorkerSteps(w, Image(hash, publicUrl, sizeBytes), put, stagingGone);
      assert forall i :: 0 <= i < |PutRun(w, put, stagingGone)| ==>
        PutRun(w, put, stagingGone)[i] == ReadRun(w, Image(hash, publicUrl, sizeBytes), put, stagingGone)[i + 1];
      IdleRun(s1, PutRun(w, put, stagingGone), w);
    } else if put.Stored? {
      StoredIsARun(s1, w, final, stagingGone);
    } else {
      FailedPutIsARun(s1, w, final, put.landed, stagingGone);
    }
  }

  lemma AfterClaimIsARun(s: System, w: WorkerId, read: ReadOutcome, put: PutOutcome, stagingGone: bool)
    requires AtRead(s, w)
    ensures
      var f := s.finalizers[w];
      Agrees(Run(s, ReadRun(w, read, put, stagingGone)),
             AfterClaim(s.rows, s.store, f.upload, f.user, f.now, read, put, stagingGone))
  {
    match read
    case Invalid(code) => RunCons(s, ReadRejected(w, code), []);
    case Unavailable => RunCons(s, ReadUnavailable(w), []);
    case Image(hash, publicUrl, sizeBytes) => ImageIsARun(s, w, hash, publicUrl, sizeBytes, put, stagingGone);
  }

  lemma BeginAlone(s: System, w: WorkerId, id: UploadId, user: UserId, now: Time)
    requires w !in s.finalizers && now <= s.clock
    ensures
      var t := Begin(s, w, id, user, now);
      var (claim, rows) := Claim(s.rows, id, user, now, now + FINALIZE_LEASE_MS);
      && t.rows == rows && t.store == s.store
      && (w in t.finalizers <==> claim.Claimed?)
      && (claim.Claimed? ==>
            && AtRead(t, w) && t.finalizers[w].upload == id && t.finalizers[w].user == user
            && t.finalizers[w].now == now)
  {}

  /** In any system, a finalizeUpload call by a new worker that nothing interrupts is one run of the
      interleaving model, whatever moment it read, so what every run keeps, the service's own code keeps. */
  lemma FinalizedIsARun(
      s: System, w: WorkerId, id: UploadId, user: UserId, now: Time, read: ReadOutcome, put: PutOutcome,
      stagingGone: bool)
    requires w !in s.finalizers && now <= s.clock
    ensures Agrees(Run(s, FinalizeRun(w, id, user, now, read, put, stagingGone)),
                   Finalized(s.rows, s.store, id, user, now, read, put, stagingGone))
  {
    var s1 := Begin(s, w, id, user, now);
    BeginAlone(s, w, id, user, now);
    RunCons(s, BeginFinalize(w, id, user, now), ReadRun(w, read, put, stagingGone));
    if w in s1.finalizers {
      AfterClaimIsARun(s1, w, read, put, stagingGone);
    } else {
      ReadRunIsWorkerSteps(w, read, put, stagingGone);
      IdleRun(s1, ReadRun(w, read, put, stagingGone), w);
    }
  }

  class Service {
    const repository: UploadRepository
    const store: ObjectStore

    constructor (repository: UploadRepository, store: ObjectStore)
      ensures this.repository == repository && this.store == store
    {
      this.repository, this.store := repository, store;
    }

    method FinalizeUpload(
        id: UploadId, user: UserId, now: Time, read: ReadOutcome, put: PutOutcome, stagingGone: bool)
      returns (result: FinalizeResult)
      modifies store, repository
      ensures Outcome(result, repository.rows, store.keys)
           == Finalized(old(repository.rows), old(store.keys), id, user, now, read, put, stagingGone)
      ensures FinalizeAnswer(
        old(repository.rows), repository.rows, id, user, old(store.keys), store.keys, now, read, put, stagingGone, result)
    {
      FinalizeAnswers(repository.rows, store.keys, id, user, now, read, put, stagingGone);
      var lease := now + FINALIZE_LEASE_MS;
      var claim := repository.ClaimFinalize(id, user, now, lease);
      match claim {
        case AlreadyVerified(upload) => return Payload(upload);
        case AlreadyFailed(code) => return FinalizeError(code);
        case Expired(_) => return FinalizeError("UPLOAD_EXPIRED");
        case Busy(_) => return FinalizeError("UPLOAD_PROCESSING");
        case NotFound => return FinalizeError("UPLOAD_NOT_FOUND");
        case Claimed(_) =>
      }
      if read.Invalid? {
        repository.MarkFailed(id, read.code, lease);
        return FinalizeError(read.code);
      }
      if read.Unavailable? {
        repository.ReleaseFinalizeLease(id, lease);
        return FinalizeError("UPLOAD_OBJECT_UNAVAILABLE");
      }
      var final := FinalObject(FinalKey(user, id, read.hash), read.publicUrl, "image/jpeg", read.sizeBytes);
      var prepared := repository.PrepareFinalObject(id, user, final, lease, now);
      if !prepared.Prepared? {
        return PrepareError(prepared);
      }
      if put.PutFailed? {
        if put.landed {
          store.keys := store.keys + {final.key};
        }
        repository.ReleaseFinalizeLease(id, lease);
        return FinalizeError("UPLOAD_FINAL_WRITE_FAILED");
      }
      store.keys := store.keys + {final.key};
      var verified := repository.MarkVerified(id, user, final, lease, now);
      if !verified.VerifiedAs? {
        return VerifyError(verified);
      }
      if stagingGone {
        repository.MarkStagingDeleted(id, now);
      }
      return Payload(verified.upload);
    }
  }

  /** Nothing stands in the way of finalising: the upload is open, unexpired and not being processed. */
  predicate Finalizable(u: Upload, user: UserId, now: Time) {
    && u.userId == user && Open(u) && now < u.expiresAt
    && (u.status == Processing ==> AtOrBefore(u.processingLease, now))
  }

  /** An uninterrupted call on a finalizable upload that was not prepared with other content verifies
      it, stores its object and returns it. */
  lemma FinalizeSucceeds(
      rows: Table, store: set<ObjectKey>, id: UploadId, user: UserId, now: Time, hash: string,
      publicUrl: string, sizeBytes: nat, stagingGone: bool)
    requires id in rows && RowOk(id, rows[id]) && Finalizable(rows[id], user, now)
    requires rows[id].final.Some? ==> rows[id].final.value.key == FinalKey(user, id, hash)
    requires sizeBytes > 0
    ensures
      var o := Finalized(rows, store, id, user, now, Image(hash, publicUrl, sizeBytes), Stored, stagingGone);
      && o.result.Payload? && o.rows[id].status == Verified
      && o.rows[id].final == Some(FinalObject(FinalKey(user, id, hash), publicUrl, "image/jpeg", sizeBytes))
      && o.store == store + {FinalKey(user, id, hash)}
      && (stagingGone ==> o.rows[id].stagingDeletedAt == Some(now))
      && o.rows - {id} == rows - {id}
  {}
}
