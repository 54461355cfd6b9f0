/** Finalizers, cleanup workers and account deletion interleaving over the upload table and an object
    store that the database cannot update atomically. Every repository call and every effect of the
    store is one step; a worker may crash between any two of its steps, and uses the moment that it read
    before its first call, however late the call itself comes. */
module UploadPipeline {
  import opened Common
  import opened UploadTable

  type WorkerId = int
  type JobId = int

  /** Where one run of finalizeUpload stands after its claim. */
  datatype Phase = Reading | Putting | Acknowledged | Published | Ended

  /** `final` is set once the row has been prepared. From then on the put may reach the store at any
      later moment, and more than once, whatever the worker itself observed or did meanwhile. */
  datatype Finalizer = Finalizer(
    user: UserId, upload: UploadId, lease: Time, now: Time, phase: Phase, final: Option<FinalObject>, landed: bool)

  /** One row of a claimed cleanup batch, as the claim returned it. */
  datatype CleanupJob = CleanupJob(
    upload: UploadId, lease: Time, now: Time, attempts: nat, stagingRequired: bool, finalRequired: bool,
    finalKey: Option<ObjectKey>, finalGone: bool, open: bool)

  datatype System = System(
    clock: Time,
    rows: Table,
    store: set<ObjectKey>,
    finalizers: map<WorkerId, Finalizer>,
    jobs: map<JobId, CleanupJob>)

  const EMPTY_SYSTEM := System(0, map[], {}, map[], map[])

  /** A `now` is the moment that the caller read; it may lie any time before the step. */
  datatype Event =
    | Tick(to: Time)
    | CreateUpload(upload: UploadId, user: UserId, now: Time)
    | BeginFinalize(worker: WorkerId, upload: UploadId, user: UserId, now: Time)
    | ReadRejected(worker: WorkerId, code: string)
    | ReadUnavailable(worker: WorkerId)
    | PrepareFinal(worker: WorkerId, hash: string, publicUrl: string, sizeBytes: nat)
    | PutLands(worker: WorkerId)
    | PutAcknowledged(worker: WorkerId)
    | PutRejected(worker: WorkerId)
    | PublishVerified(worker: WorkerId)
    | FinishStaging(worker: WorkerId, deleted: bool)
    | FinalizerCrashes(worker: WorkerId)
    | ClaimCleanup(job: JobId, upload: UploadId, now: Time)
    | DeleteLands(job: JobId)
    | ApplyCleanup(job: JobId, stagingOk: bool, finalOk: bool)
    | CleanupCrashes(job: JobId)
    | AnonymizeUser(user: UserId, now: Time)

  // ------------------------------------------------------------------ steps

  predicate InPhase(s: System, w: WorkerId, phase: Phase) {
    w in s.finalizers && s.finalizers[w].phase == phase
  }

  function Advance(s: System, w: WorkerId, phase: Phase): System
    requires w in s.finalizers
  {
    s.(finalizers := s.finalizers[w := s.finalizers[w].(phase := phase)])
  }

  function Create(s: System, id: UploadId, user: UserId, now: Time): System {
    if id in s.rows then s else s.(rows := s.rows[id := PendingRow(id, user, now + UPLOAD_URL_TTL_MS, now)])
  }

  function Begin(s: System, w: WorkerId, id: UploadId, user: UserId, now: Time): System {
    if w in s.finalizers || now > s.clock then s
    else
      var lease := now + FINALIZE_LEASE_MS;
      var (claim, rows) := Claim(s.rows, id, user, now, lease);
      var claimed := s.(rows := rows);
      if claim.Claimed?
      then claimed.(finalizers := s.finalizers[w := Finalizer(user, id, lease, now, Reading, None, false)])
      else claimed
  }

  function Reject(s: System, w: WorkerId, code: string): System
    requires w in s.finalizers
  {
    Advance(s.(rows := Fail(s.rows, s.finalizers[w].upload, code, s.finalizers[w].lease)), w, Ended)
  }

  function GiveUp(s: System, w: WorkerId): System
    requires w in s.finalizers
  {
    Advance(s.(rows := Release(s.rows, s.finalizers[w].upload, s.finalizers[w].lease)), w, Ended)
  }

  function ObjectFor(f: Finalizer, hash: string, publicUrl: string, sizeBytes: nat): FinalObject {
    FinalObject(FinalKey(f.user, f.upload, hash), publicUrl, "image/jpeg", sizeBytes)
  }

  function PrepareStep(s: System, w: WorkerId, final: FinalObject): System
    requires w in s.finalizers
  {
    var f := s.finalizers[w];
    var (result, rows) := Prepare(s.rows, f.upload, f.user, final, f.lease, f.now);
    if result.Prepared?
    then s.(rows := rows, finalizers := s.finalizers[w := f.(phase := Putting, final := Some(final))])
    else Advance(s, w, Ended)
  }

  function Land(s: System, w: WorkerId): System {
    if w in s.finalizers && s.finalizers[w].final.Some?
    then s.(store := s.store + {s.finalizers[w].final.value.key},
            finalizers := s.finalizers[w := s.finalizers[w].(landed := true)])
    else s
  }

  function Publish(s: System, w: WorkerId): System
    requires w in s.finalizers && s.finalizers[w].final.Some?
  {
    var f := s.finalizers[w];
    var (result, rows) := Verify(s.rows, f.upload, f.user, f.final.value, f.lease, f.now);
    Advance(s.(rows := rows), w, if result.VerifiedAs? then Published else Ended)
  }

  function ForgetStaging(s: System, w: WorkerId): System
    requires w in s.finalizers
  {
    s.(rows := StagingDeleted(s.rows, s.finalizers[w].upload, s.finalizers[w].now))
  }

  /** The job that a claim at `now` makes of a row. */
  function JobFor(id: UploadId, u: Upload, now: Time): CleanupJob {
    var row := CleanupClaimedRow(u, now + CLEANUP_LEASE_MS);
    var finalRequired := FinalDeletionDue(row);
    CleanupJob(id, now + CLEANUP_LEASE_MS, now, row.cleanupAttempts, row.stagingDeletedAt.None?, finalRequired,
               if finalRequired && row.final.Some? then Some(row.final.value.key) else None, false, true)
  }

  /** Rows of a batch are claimed one step at a time: whether a row is due depends on that row alone,
      so one claim transaction is a run of these steps with the same `now`. */
  function ClaimJob(s: System, j: JobId, id: UploadId, now: Time): System {
    if j in s.jobs || id !in s.rows || now > s.clock || !CleanupDue(s.rows[id], now) then s
    else
      s.(rows := s.rows[id := CleanupClaimedRow(s.rows[id], now + CLEANUP_LEASE_MS)],
         jobs := s.jobs[j := JobFor(id, s.rows[id], now)])
  }

  function LandDelete(s: System, j: JobId): System {
    if j in s.jobs && s.jobs[j].finalKey.Some?
    then s.(store := s.store - {s.jobs[j].finalKey.value}, jobs := s.jobs[j := s.jobs[j].(finalGone := true)])
    else s
  }

  function JobResult(job: CleanupJob, stagingOk: bool, finalOk: bool): CleanupResult {
    var stagingDeleted := !job.stagingRequired || stagingOk;
    var finalDeleted := job.finalKey.None? || finalOk;
    CleanupResult(
      job.lease,
      job.stagingRequired && stagingDeleted,
      job.finalRequired && finalDeleted,
      if stagingDeleted && finalDeleted then None else Some(job.now + BackoffMs(job.attempts)),
      job.now)
  }

  function CloseJob(s: System, j: JobId): System
    requires j in s.jobs
  {
    s.(jobs := s.jobs[j := s.jobs[j].(open := false)])
  }

  /** A deletion is reported as done only after it took effect. */
  function Apply(s: System, j: JobId, stagingOk: bool, finalOk: bool): System {
    if j in s.jobs && s.jobs[j].open && (finalOk ==> s.jobs[j].finalGone)
    then CloseJob(s.(rows := Cleaned(s.rows, s.jobs[j].upload, JobResult(s.jobs[j], stagingOk, finalOk))), j)
    else s
  }

  function Anonymise(s: System, user: UserId, now: Time): System {
    if now <= s.clock then s.(rows := Anonymized(s.rows, user, now)) else s
  }

  function Step(s: System, e: Event): System {
    match e
    case Tick(to) => if to >= s.clock then s.(clock := to) else s
    case CreateUpload(id, user, now) => Create(s, id, user, now)
    case BeginFinalize(w, id, user, now) => Begin(s, w, id, user, now)
    case ReadRejected(w, code) => if InPhase(s, w, Reading) then Reject(s, w, code) else s
    case ReadUnavailable(w) => if InPhase(s, w, Reading) then GiveUp(s, w) else s
    case PrepareFinal(w, hash, publicUrl, sizeBytes) =>
      if InPhase(s, w, Reading) then PrepareStep(s, w, ObjectFor(s.finalizers[w], hash, publicUrl, sizeBytes)) else s
    case PutLands(w) => Land(s, w)
    case PutAcknowledged(w) =>
      if InPhase(s, w, Putting) && s.finalizers[w].landed then Advance(s, w, Acknowledged) else s
    case PutRejected(w) => if InPhase(s, w, Putting) then GiveUp(s, w) else s
    case PublishVerified(w) =>
      if InPhase(s, w, Acknowledged) && s.finalizers[w].final.Some? then Publish(s, w) else s
    case FinishStaging(w, deleted) =>
      if !InPhase(s, w, Published) then s else Advance(if deleted then ForgetStaging(s, w) else s, w, Ended)
    case FinalizerCrashes(w) => if w in s.finalizers then Advance(s, w, Ended) else s
    case ClaimCleanup(j, id, now) => ClaimJob(s, j, id, now)
    case DeleteLands(j) => LandDelete(s, j)
    case ApplyCleanup(j, stagingOk, finalOk) => Apply(s, j, stagingOk, finalOk)
    case CleanupCrashes(j) => if j in s.jobs then CloseJob(s, j) else s
    case AnonymizeUser(user, now) => Anonymise(s, user, now)
  }

  function Run(s: System, es: seq<Event>): System
    decreases |es|
  {
    if es == [] then s else Run(Step(s, es[0]), es[1..])
  }

  lemma RunCons(s: System, e: Event, rest: seq<Event>)
    ensures Run(s, [e] + rest) == Run(Step(s, e), rest)
  {
    assert ([e] + rest)[1..] == rest;
  }

  // -------------------------------------------- what holds under any timing

  predicate KeyOf(key: ObjectKey, user: UserId, id: UploadId) {
    key.FinalKey? && key.owner == user && key.upload == id
  }

  /** The check constraint profile_uploads_final_deletion_state_check. */
  predicate FinalDeletionStateCheck(u: Upload) {
    || (u.finalDeletionPendingAt.None? && u.finalDeletedAt.None?)
    || (u.finalDeletionPendingAt.Some? && (u.final.Some? || u.finalDeletedAt.Some?))
  }

  /** The check constraints profile_uploads_verified_fields_check and profile_uploads_final_size_check. */
  predicate FieldsCheck(u: Upload) {
    (u.status == Verified ==> u.final.Some? && u.verifiedAt.Some?) && (u.final.Some? ==> u.final.value.sizeBytes > 0)
  }

  /** While a finalizer works on a prepared row, the cleanup lease is its processing lease. */
  predicate LeaseFenced(u: Upload) {
    && (u.status == Processing <==> u.processingLease.Some?)
    && (u.status == Processing && u.finalDeletionPendingAt.Some? ==> u.cleanupLease == u.processingLease)
  }

  predicate RowOk(id: UploadId, u: Upload) {
    && LeaseFenced(u)
    && FinalDeletionStateCheck(u)
    && FieldsCheck(u)
    && (u.status == Verified ==> u.finalDeletionPendingAt.None?)
    && (Open(u) ==> u.finalDeletedAt.None?)
    && (u.final.Some? ==> KeyOf(u.final.value.key, u.userId, id))
  }

  predicate Active(f: Finalizer) { f.phase == Reading || f.phase == Putting || f.phase == Acknowledged }

  /** The worker's statements under its lease would match the row. */
  predicate Holds(s: System, w: WorkerId) {
    && w in s.finalizers && Active(s.finalizers[w])
    && s.finalizers[w].upload in s.rows && FenceHeld(s.rows[s.finalizers[w].upload], s.finalizers[w].lease)
  }

  predicate HoldsLive(s: System, w: WorkerId) { Holds(s, w) && s.finalizers[w].lease > s.clock }

  predicate FinalizerOk(s: System, w: WorkerId)
    requires w in s.finalizers
  {
    var f := s.finalizers[w];
    && f.upload in s.rows
    && s.rows[f.upload].userId == f.user
    && f.now <= s.clock && f.lease == f.now + FINALIZE_LEASE_MS
    && (f.final.Some? ==> KeyOf(f.final.value.key, f.user, f.upload))
    && (f.phase == Reading ==> f.final.None?)
    && (f.phase == Putting || f.phase == Acknowledged || f.landed ==> f.final.Some?)
    && (f.phase == Acknowledged ==> f.landed)
    && (Active(f) && f.lease > s.clock ==> Holds(s, w) || Closed(s.rows[f.upload]))
    && (f.landed && s.rows[f.upload].status != Failed ==> f.final.value.key in s.store)
    && (f.phase == Published ==> Closed(s.rows[f.upload]))
  }

  predicate JobOk(s: System, job: CleanupJob) {
    && job.upload in s.rows
    && Closed(s.rows[job.upload])
    && (job.finalRequired <==> job.finalKey.Some?)
    && (job.finalRequired ==>
          var u := s.rows[job.upload];
          && u.status == Failed
          && u.finalDeletionPendingAt.Some?
          && KeyOf(job.finalKey.value, u.userId, job.upload)
          && (u.final.Some? ==> u.final.value.key == job.finalKey.value))
  }

  ghost predicate RowsOk(s: System) { forall id :: id in s.rows ==> RowOk(id, s.rows[id]) }

  ghost predicate FinalizersOk(s: System) { forall w :: w in s.finalizers ==> FinalizerOk(s, w) }

  /** No two workers hold one row under a lease that still runs. */
  ghost predicate Exclusive(s: System) {
    forall v, w :: HoldsLive(s, v) && HoldsLive(s, w) && s.finalizers[v].upload == s.finalizers[w].upload ==> v == w
  }

  ghost predicate JobsOk(s: System) { forall j :: j in s.jobs ==> JobOk(s, s.jobs[j]) }

  predicate Present(s: System, id: UploadId)
    requires id in s.rows
  {
    s.rows[id].status == Verified ==> s.rows[id].final.Some? && s.rows[id].final.value.key in s.store
  }

  /** A verified row's final object is in the store. */
  ghost predicate VerifiedPresent(s: System) { forall id :: id in s.rows ==> Present(s, id) }

  ghost predicate Inv(s: System) {
    RowsOk(s) && FinalizersOk(s) && Exclusive(s) && JobsOk(s) && VerifiedPresent(s)
  }

  // ----------------------------------------- what a step leaves to the others

  /** `t` may differ in rows, store and clock, as far as rows evolve and keys of open and verified rows stay. */
  ghost predicate Frames(s: System, t: System) {
    && s.clock <= t.clock && Evolves(s.rows, t.rows)
    && (forall key :: key in s.store && key !in t.store ==>
          key.FinalKey? && key.upload in t.rows && t.rows[key.upload].status == Failed)
  }

  lemma JobsFrame(s: System, t: System)
    requires JobsOk(s) && Frames(s, t) && t.jobs == s.jobs
    ensures JobsOk(t)
  {}

  lemma FinalizerFrame(s: System, t: System, v: WorkerId)
    requires v in s.finalizers && v in t.finalizers && t.finalizers[v] == s.finalizers[v]
    requires FinalizerOk(s, v) && Frames(s, t)
    requires HoldsLive(s, v) ==> Holds(t, v) || Closed(t.rows[s.finalizers[v].upload])
    ensures FinalizerOk(t, v)
  {}

  /** Rows that change either close or are new. */
  ghost predicate RowsSettle(s: System, t: System) {
    forall id :: id in t.rows ==>
      || (id in s.rows && t.rows[id] == s.rows[id])
      || (RowOk(id, t.rows[id]) && Present(t, id) && (Closed(t.rows[id]) || id !in s.rows))
  }

  lemma SettlingKeepsInv(s: System, t: System)
    requires Inv(s) && Frames(s, t) && RowsSettle(s, t)
    requires t.finalizers == s.finalizers && t.jobs == s.jobs
    ensures Inv(t)
  {
    forall v | v in t.finalizers
      ensures FinalizerOk(t, v) && (HoldsLive(t, v) ==> HoldsLive(s, v))
    {
      assert FinalizerOk(s, v);
      FinalizerFrame(s, t, v);
    }
    SettledRows(s, t);
    JobsFrame(s, t);
  }

  lemma SettledRows(s: System, t: System)
    requires RowsOk(s) && VerifiedPresent(s) && Frames(s, t) && RowsSettle(s, t)
    ensures RowsOk(t) && VerifiedPresent(t)
  {
    forall id | id in t.rows
      ensures RowOk(id, t.rows[id]) && Present(t, id)
    {
      if id in s.rows {
        assert RowOk(id, s.rows[id]) && Present(s, id);
      }
    }
  }

  /** Only the worker's own record changes, and an ended worker stays ended. */
  predicate WorkerMoves(s: System, t: System, w: WorkerId) {
    && w in s.finalizers && w in t.finalizers
    && t.finalizers == s.finalizers[w := t.finalizers[w]]
    && t.finalizers[w].upload == s.finalizers[w].upload && t.finalizers[w].lease == s.finalizers[w].lease
    && (Active(t.finalizers[w]) ==> Active(s.finalizers[w]))
    && t.clock == s.clock && t.jobs == s.jobs && s.store <= t.store
  }

  lemma WorkerKeepsInv(s: System, t: System, w: WorkerId)
    requires Inv(s) && WorkerMoves(s, t, w) && t.rows == s.rows && FinalizerOk(t, w)
    ensures Inv(t)
  {
    forall v | v in t.finalizers
      ensures FinalizerOk(t, v) && (HoldsLive(t, v) ==> HoldsLive(s, v))
    {
      assert FinalizerOk(s, v);
      if v != w {
        FinalizerFrame(s, t, v);
      }
    }
    JobsFrame(s, t);
    assert forall id :: id in t.rows ==> Present(s, id);
  }

  /** The worker's row changes while it holds the row's fence, and nobody else gets the fence. */
  predicate FencedMove(s: System, t: System, w: WorkerId)
    requires w in s.finalizers
  {
    var id, lease := s.finalizers[w].upload, s.finalizers[w].lease;
    && Holds(s, w) && id in t.rows && t.rows == s.rows[id := t.rows[id]]
    && RowOk(id, t.rows[id]) && RowEvolves(s.rows[id], t.rows[id]) && Present(t, id)
    && (t.rows[id].status == Processing ==> t.rows[id].processingLease == Some(lease))
  }

  lemma FencedOthers(s: System, t: System, w: WorkerId, v: WorkerId)
    requires Inv(s) && WorkerMoves(s, t, w) && FencedMove(s, t, w) && v in t.finalizers && v != w
    ensures FinalizerOk(t, v) && (HoldsLive(t, v) ==> HoldsLive(s, v))
  {
    assert FinalizerOk(s, v);
    assert HoldsLive(s, v) && s.finalizers[v].upload == s.finalizers[w].upload ==> HoldsLive(s, w);
    FinalizerFrame(s, t, v);
  }

  lemma FencedKeepsInv(s: System, t: System, w: WorkerId)
    requires Inv(s) && WorkerMoves(s, t, w) && FencedMove(s, t, w) && FinalizerOk(t, w)
    ensures Inv(t)
  {
    forall v | v in t.finalizers
      ensures FinalizerOk(t, v) && (HoldsLive(t, v) ==> HoldsLive(s, v))
    {
      if v != w {
        FencedOthers(s, t, w, v);
      }
    }
    JobsFrame(s, t);
    assert forall id :: id in s.rows ==> RowOk(id, s.rows[id]) && Present(s, id);
  }

  // --------------------------------------------------------- finalizer steps

  /** A claim takes a row that nobody holds under a running lease. */
  lemma ClaimedIsFree(s: System, id: UploadId, user: UserId, now: Time, v: WorkerId)
    requires Inv(s) && now <= s.clock && HoldsLive(s, v) && s.finalizers[v].upload == id
    ensures !Claim(s.rows, id, user, now, now + FINALIZE_LEASE_MS).0.Claimed?
  {}

  lemma BeginRow(s: System, id: UploadId, user: UserId, now: Time)
    requires RowsOk(s) && id in s.rows && s.rows[id].userId == user
    ensures
      var (claim, rows) := Claim(s.rows, id, user, now, now + FINALIZE_LEASE_MS);
      && id in rows && rows == s.rows[id := rows[id]] && RowOk(id, rows[id])
      && (rows[id].status == Verified ==> rows[id] == s.rows[id])
      && (claim.Claimed? ==> FenceHeld(rows[id], now + FINALIZE_LEASE_MS))
      && (!claim.Claimed? ==> rows[id] == s.rows[id] || rows[id].status == Failed)
  {
    assert RowOk(id, s.rows[id]);
  }

  lemma BeginOthers(s: System, w: WorkerId, id: UploadId, user: UserId, now: Time, v: WorkerId)
    requires Inv(s) && w !in s.finalizers && now <= s.clock && v in s.finalizers
    ensures
      var t := Begin(s, w, id, user, now);
      v in t.finalizers && FinalizerOk(t, v)
      && (HoldsLive(t, v) ==> HoldsLive(s, v))
      && (HoldsLive(t, v) && t.finalizers[v].upload == id ==> w !in t.finalizers)
  {
    var t := Begin(s, w, id, user, now);
    assert FinalizerOk(s, v);
    ClaimEvolves(s.rows, id, user, now, now + FINALIZE_LEASE_MS);
    if id in s.rows && s.rows[id].userId == user {
      BeginRow(s, id, user, now);
      if HoldsLive(s, v) && s.finalizers[v].upload == id {
        ClaimedIsFree(s, id, user, now, v);
      }
    }
    FinalizerFrame(s, t, v);
  }

  lemma BeginKeepsRows(s: System, w: WorkerId, id: UploadId, user: UserId, now: Time)
    requires Inv(s) && w !in s.finalizers && now <= s.clock && id in s.rows && s.rows[id].userId == user
    ensures
      var t := Begin(s, w, id, user, now);
      RowsOk(t) && VerifiedPresent(t) && JobsOk(t)
  {
    var t := Begin(s, w, id, user, now);
    BeginRow(s, id, user, now);
    ClaimEvolves(s.rows, id, user, now, now + FINALIZE_LEASE_MS);
    JobsFrame(s, t);
    forall i | i in t.rows
      ensures RowOk(i, t.rows[i]) && Present(t, i)
    {
      assert RowOk(i, s.rows[i]) && Present(s, i);
    }
  }

  lemma BeginOwn(s: System, w: WorkerId, id: UploadId, user: UserId, now: Time)
    requires w !in s.finalizers && now <= s.clock
    ensures
      var t := Begin(s, w, id, user, now);
      w in t.finalizers ==> FinalizerOk(t, w) && t.finalizers[w].upload == id
  {}

  lemma BeginKeepsInv(s: System, w: WorkerId, id: UploadId, user: UserId, now: Time)
    requires Inv(s)
    ensures Inv(Begin(s, w, id, user, now))
  {
    var t := Begin(s, w, id, user, now);
    if w !in s.finalizers && now <= s.clock && id in s.rows && s.rows[id].userId == user {
      BeginKeepsRows(s, w, id, user, now);
      BeginOwn(s, w, id, user, now);
      forall v | v in s.finalizers
        ensures v in t.finalizers && FinalizerOk(t, v) && (HoldsLive(t, v) ==> HoldsLive(s, v))
        ensures t.finalizers[v] == s.finalizers[v]
        ensures HoldsLive(t, v) && t.finalizers[v].upload == id ==> w !in t.finalizers
      {
        BeginOthers(s, w, id, user, now, v);
      }
    }
  }

  lemma RejectKeepsInv(s: System, w: WorkerId, code: string)
    requires Inv(s) && InPhase(s, w, Reading)
    ensures Inv(Reject(s, w, code))
  {
    var t := Reject(s, w, code);
    assert FinalizerOk(s, w) && RowOk(s.finalizers[w].upload, s.rows[s.finalizers[w].upload]);
    if t.rows == s.rows {
      WorkerKeepsInv(s, t, w);
    } else {
      FencedKeepsInv(s, t, w);
    }
  }

  lemma GiveUpKeepsInv(s: System, w: WorkerId)
    requires Inv(s) && (InPhase(s, w, Reading) || InPhase(s, w, Putting))
    ensures Inv(GiveUp(s, w))
  {
    var t := GiveUp(s, w);
    assert FinalizerOk(s, w) && RowOk(s.finalizers[w].upload, s.rows[s.finalizers[w].upload]);
    if t.rows == s.rows {
      WorkerKeepsInv(s, t, w);
    } else {
      FencedKeepsInv(s, t, w);
    }
  }

  lemma PrepareKeepsInv(s: System, w: WorkerId, final: FinalObject)
    requires Inv(s) && InPhase(s, w, Reading) && KeyOf(final.key, s.finalizers[w].user, s.finalizers[w].upload)
    ensures Inv(PrepareStep(s, w, final))
  {
    var t := PrepareStep(s, w, final);
    assert FinalizerOk(s, w) && RowOk(s.finalizers[w].upload, s.rows[s.finalizers[w].upload]);
    if InPhase(t, w, Ended) {
      WorkerKeepsInv(s, t, w);
    } else {
      FencedKeepsInv(s, t, w);
    }
  }

  lemma LandKeepsInv(s: System, w: WorkerId)
    requires Inv(s)
    ensures Inv(Land(s, w))
  {
    if w in s.finalizers && s.finalizers[w].final.Some? {
      assert FinalizerOk(s, w);
      WorkerKeepsInv(s, Land(s, w), w);
    }
  }

  lemma AdvanceKeepsInv(s: System, w: WorkerId, phase: Phase)
    requires Inv(s) && w in s.finalizers
    requires phase == Ended || (phase == Acknowledged && InPhase(s, w, Putting) && s.finalizers[w].landed)
    ensures Inv(Advance(s, w, phase))
  {
    assert FinalizerOk(s, w);
    WorkerKeepsInv(s, Advance(s, w, phase), w);
  }

  lemma PublishKeepsInv(s: System, w: WorkerId)
    requires Inv(s) && InPhase(s, w, Acknowledged) && s.finalizers[w].final.Some?
    ensures Inv(Publish(s, w))
  {
    var t := Publish(s, w);
    assert FinalizerOk(s, w) && RowOk(s.finalizers[w].upload, s.rows[s.finalizers[w].upload]);
    if t.rows == s.rows {
      WorkerKeepsInv(s, t, w);
    } else {
      FencedKeepsInv(s, t, w);
    }
  }

  lemma ForgetStagingKeepsInv(s: System, w: WorkerId)
    requires Inv(s) && InPhase(s, w, Published)
    ensures Inv(ForgetStaging(s, w))
  {
    var id := s.finalizers[w].upload;
    assert FinalizerOk(s, w) && RowOk(id, s.rows[id]) && Present(s, id);
    SettlingKeepsInv(s, ForgetStaging(s, w));
  }

  // ---------------------------------------------- cleanup steps and the rest

  lemma NewJobKeepsInv(s: System, j: JobId, job: CleanupJob)
    requires Inv(s) && JobOk(s, job)
    ensures Inv(s.(jobs := s.jobs[j := job]))
  {
    var t := s.(jobs := s.jobs[j := job]);
    assert forall v :: v in t.finalizers ==> FinalizerOk(s, v) && (Holds(t, v) <==> Holds(s, v));
    assert forall i :: i in s.jobs ==> JobOk(s, s.jobs[i]);
    assert forall id :: id in t.rows ==> Present(s, id);
  }

  lemma ClaimJobKeepsInv(s: System, j: JobId, id: UploadId, now: Time)
    requires Inv(s)
    ensures Inv(ClaimJob(s, j, id, now))
  {
    var t := ClaimJob(s, j, id, now);
    if t != s {
      assert RowOk(id, s.rows[id]) && Present(s, id);
      CleanupEvolves(s.rows, id, now + CLEANUP_LEASE_MS, JobResult(JobFor(id, s.rows[id], now), false, false));
      SettlingKeepsInv(s, s.(rows := t.rows));
      NewJobKeepsInv(s.(rows := t.rows), j, JobFor(id, s.rows[id], now));
    }
  }

  lemma LandDeleteKeepsInv(s: System, j: JobId)
    requires Inv(s)
    ensures Inv(LandDelete(s, j))
  {
    var t := LandDelete(s, j);
    if t != s {
      assert JobOk(s, s.jobs[j]);
      var u := s.(store := t.store);
      forall id | id in s.rows
        ensures Present(u, id)
      {
        assert RowOk(id, s.rows[id]) && Present(s, id);
      }
      SettlingKeepsInv(s, u);
      NewJobKeepsInv(u, j, t.jobs[j]);
    }
  }

  lemma ApplyKeepsInv(s: System, j: JobId, stagingOk: bool, finalOk: bool)
    requires Inv(s)
    ensures Inv(Apply(s, j, stagingOk, finalOk))
  {
    var t := Apply(s, j, stagingOk, finalOk);
    if t != s {
      var id := s.jobs[j].upload;
      assert JobOk(s, s.jobs[j]) && RowOk(id, s.rows[id]) && Present(s, id);
      CleanupEvolves(s.rows, id, 0, JobResult(s.jobs[j], stagingOk, finalOk));
      SettlingKeepsInv(s, s.(rows := t.rows));
      NewJobKeepsInv(s.(rows := t.rows), j, t.jobs[j]);
    }
  }

  lemma AnonymiseKeepsInv(s: System, user: UserId, now: Time)
    requires Inv(s)
    ensures Inv(Anonymise(s, user, now))
  {
    var t := Anonymise(s, user, now);
    AnonymizedEvolves(s.rows, user, now);
    forall id | id in t.rows && t.rows[id] != s.rows[id]
      ensures RowOk(id, t.rows[id]) && Present(t, id) && Closed(t.rows[id])
    {
      assert RowOk(id, s.rows[id]);
    }
    SettlingKeepsInv(s, t);
  }

  lemma FinalizerStepKeepsInv(s: System, e: Event)
    requires Inv(s)
    requires e.ReadRejected? || e.ReadUnavailable? || e.PrepareFinal? || e.PutLands? || e.PutAcknowledged?
             || e.PutRejected? || e.PublishVerified? || e.FinishStaging? || e.FinalizerCrashes?
    ensures Inv(Step(s, e))
  {
    var w := e.worker;
    if e.PutLands? {
      LandKeepsInv(s, w);
    } else if Step(s, e) != s {
      match e
      case ReadRejected(_, code) => RejectKeepsInv(s, w, code);
      case ReadUnavailable(_) => GiveUpKeepsInv(s, w);
      case PrepareFinal(_, hash, url, size) => PrepareKeepsInv(s, w, ObjectFor(s.finalizers[w], hash, url, size));
      case PutAcknowledged(_) => AdvanceKeepsInv(s, w, Acknowledged);
      case PutRejected(_) => GiveUpKeepsInv(s, w);
      case PublishVerified(_) => PublishKeepsInv(s, w);
      case FinishStaging(_, deleted) =>
        ForgetStagingKeepsInv(s, w);
        AdvanceKeepsInv(if deleted then ForgetStaging(s, w) else s, w, Ended);
      case FinalizerCrashes(_) => AdvanceKeepsInv(s, w, Ended);
    }
  }

  lemma CleanupStepKeepsInv(s: System, e: Event)
    requires Inv(s) && (e.ClaimCleanup? || e.DeleteLands? || e.ApplyCleanup? || e.CleanupCrashes?)
    ensures Inv(Step(s, e))
  {
    match e
    case ClaimCleanup(j, id, now) => ClaimJobKeepsInv(s, j, id, now);
    case DeleteLands(j) => LandDeleteKeepsInv(s, j);
    case ApplyCleanup(j, stagingOk, finalOk) => ApplyKeepsInv(s, j, stagingOk, finalOk);
    case CleanupCrashes(j) =>
      if j in s.jobs {
        assert JobOk(s, s.jobs[j]);
        NewJobKeepsInv(s, j, s.jobs[j].(open := false));
      }
  }

  lemma StepKeepsInv(s: System, e: Event)
    requires Inv(s)
    ensures Inv(Step(s, e))
  {
    if e.Tick? || e.CreateUpload? {
      SettlingKeepsInv(s, Step(s, e));
    } else if e.BeginFinalize? {
      BeginKeepsInv(s, e.worker, e.upload, e.user, e.now);
    } else if e.AnonymizeUser? {
      AnonymiseKeepsInv(s, e.user, e.now);
    } else if e.ClaimCleanup? || e.DeleteLands? || e.ApplyCleanup? || e.CleanupCrashes? {
      CleanupStepKeepsInv(s, e);
    } else {
      FinalizerStepKeepsInv(s, e);
    }
  }

  lemma {:induction false} RunKeepsInv(s: System, es: seq<Event>)
    requires Inv(s)
    ensures Inv(Run(s, es))
    decreases |es|
  {
    if es != [] {
      StepKeepsInv(s, es[0]);
      RunKeepsInv(Step(s, es[0]), es[1..]);
    }
  }
}
