/** When the store keeps no object that nothing answers for: puts that take effect under their lease, and
    the exact conditions on claims and on account deletion. */
module UploadOrphans {
  import opened Common
  import opened UploadTable
  import opened UploadPipeline

  /** A put that has not yet outlived the lease it was prepared under. */
  predicate LiveWrite(s: System, f: Finalizer) { f.final.Some? && f.lease > s.clock }

  /** The row answers for the object: it is verified, or the object is waiting for deletion. */
  predicate Tracks(u: Upload, key: ObjectKey) {
    u.final.Some? && u.final.value.key == key && (u.status == Verified || FinalDeletionDue(u))
  }

  /** Cleanup stays away from the row until the write's lease has expired. */
  predicate Shielded(u: Upload, key: ObjectKey, lease: Time) {
    Tracks(u, key) && (u.status == Verified || (u.cleanupLease.Some? && u.cleanupLease.value >= lease))
  }

  ghost predicate Unattended(s: System, id: UploadId) {
    && (forall j :: j in s.jobs ==> s.jobs[j].upload != id)
    && (forall w :: w in s.finalizers && s.finalizers[w].upload == id ==> s.finalizers[w].phase != Published)
  }

  ghost predicate WriteShielded(s: System, f: Finalizer) {
    && f.upload in s.rows && f.final.Some?
    && Shielded(s.rows[f.upload], f.final.value.key, f.lease)
    && (s.rows[f.upload].status == Failed ==> Unattended(s, f.upload))
  }

  ghost predicate WritesShielded(s: System) {
    forall w :: w in s.finalizers && LiveWrite(s, s.finalizers[w]) ==> WriteShielded(s, s.finalizers[w])
  }

  predicate Answered(s: System, key: ObjectKey) {
    key.FinalKey? && key.upload in s.rows && Tracks(s.rows[key.upload], key)
  }

  /** Every final object in the store belongs to a row that answers for it. */
  ghost predicate NoOrphans(s: System) { forall key :: key in s.store ==> Answered(s, key) }

  predicate StaysGone(s: System, job: CleanupJob) {
    job.finalGone && job.finalKey.Some? ==> job.finalKey.value !in s.store
  }

  ghost predicate GoneStaysGone(s: System) { forall j :: j in s.jobs ==> StaysGone(s, s.jobs[j]) }

  ghost predicate TimedInv(s: System) { WritesShielded(s) && NoOrphans(s) && GoneStaysGone(s) }

  /** The assumption on the store: a put takes effect before the lease it ran under expires. */
  predicate Timely(s: System, e: Event) {
    e.PutLands? && e.worker in s.finalizers ==> s.finalizers[e.worker].lease > s.clock
  }

  /** The account holder has no live write on a row that is not being processed right now. */
  ghost predicate NoStrayWrite(s: System, user: UserId) {
    forall w :: w in s.finalizers && LiveWrite(s, s.finalizers[w]) && s.finalizers[w].user == user
                && s.finalizers[w].upload in s.rows ==>
      s.rows[s.finalizers[w].upload].status == Processing
  }

  predicate Claims(s: System, w: WorkerId, id: UploadId, user: UserId, now: Time) {
    w !in s.finalizers && now <= s.clock && Claim(s.rows, id, user, now, now + FINALIZE_LEASE_MS).0.Claimed?
  }

  predicate OutlivedBy(s: System, id: UploadId, lease: Time, v: WorkerId) {
    v in s.finalizers && LiveWrite(s, s.finalizers[v]) && s.finalizers[v].upload == id && s.finalizers[v].lease > lease
  }

  /** The claim's own lease ends before that of a live write on the row: its moment was read earlier. */
  ghost predicate Undercuts(s: System, w: WorkerId, id: UploadId, user: UserId, now: Time) {
    Claims(s, w, id, user, now) && exists v :: v in s.finalizers && OutlivedBy(s, id, now + FINALIZE_LEASE_MS, v)
  }

  ghost predicate Allowed(s: System, e: Event) {
    && Timely(s, e)
    && (e.AnonymizeUser? && e.now <= s.clock ==> NoStrayWrite(s, e.user))
    && (e.BeginFinalize? ==> !Undercuts(s, e.worker, e.upload, e.user, e.now))
  }

  ghost predicate AllowedRun(s: System, es: seq<Event>)
    decreases |es|
  {
    es != [] ==> Allowed(s, es[0]) && AllowedRun(Step(s, es[0]), es[1..])
  }

  lemma AllowedCons(s: System, e: Event, rest: seq<Event>)
    ensures Run(s, [e] + rest) == Run(Step(s, e), rest)
    ensures AllowedRun(s, [e] + rest) <==> Allowed(s, e) && AllowedRun(Step(s, e), rest)
  {
    assert ([e] + rest)[1..] == rest;
  }

  // -------------------------------------------------------- writes stay shielded

  lemma OpenIsUnattended(s: System, id: UploadId)
    requires Inv(s) && id in s.rows && Open(s.rows[id])
    ensures Unattended(s, id)
  {
    forall j | j in s.jobs ensures s.jobs[j].upload != id {
      assert JobOk(s, s.jobs[j]);
    }
    forall w | w in s.finalizers && s.finalizers[w].upload == id ensures s.finalizers[w].phase != Published {
      assert FinalizerOk(s, w);
    }
  }

  /** Nobody attends to the row who did not before. */
  ghost predicate AttendedAsBefore(s: System, t: System, id: UploadId) {
    && (forall j :: j in t.jobs && t.jobs[j].upload == id ==> j in s.jobs && s.jobs[j].upload == id)
    && (forall w :: w in t.finalizers && t.finalizers[w].upload == id && t.finalizers[w].phase == Published ==>
          w in s.finalizers && s.finalizers[w].upload == id && s.finalizers[w].phase == Published)
  }

  lemma ShieldFrame(s: System, t: System, f: Finalizer)
    requires Inv(s) && WriteShielded(s, f) && f.upload in t.rows
    requires Shielded(t.rows[f.upload], f.final.value.key, f.lease)
    requires t.rows[f.upload].status == Failed ==>
      (Open(s.rows[f.upload]) || s.rows[f.upload].status == Failed) && AttendedAsBefore(s, t, f.upload)
    ensures WriteShielded(t, f)
  {
    if Open(s.rows[f.upload]) {
      OpenIsUnattended(s, f.upload);
    }
  }

  /** The write as it is in both states: only its phase and its landing may differ. */
  predicate SameWrite(f: Finalizer, g: Finalizer) {
    f.upload == g.upload && f.final == g.final && f.lease == g.lease && f.user == g.user
  }

  lemma BeginShields(s: System, w: WorkerId, id: UploadId, user: UserId, now: Time, v: WorkerId)
    requires Inv(s) && WritesShielded(s) && !Undercuts(s, w, id, user, now)
    requires v in s.finalizers && LiveWrite(s, s.finalizers[v])
    ensures
      var t := Begin(s, w, id, user, now);
      v in t.finalizers && t.finalizers[v] == s.finalizers[v] && WriteShielded(t, s.finalizers[v])
  {
    var t, f := Begin(s, w, id, user, now), s.finalizers[v];
    assert WriteShielded(s, f) && RowOk(f.upload, s.rows[f.upload]);
    if Claims(s, w, id, user, now) && f.upload == id {
      assert !OutlivedBy(s, id, now + FINALIZE_LEASE_MS, v);
    }
    ShieldFrame(s, t, f);
  }

  lemma RejectShields(s: System, w: WorkerId, code: string, f: Finalizer)
    requires Inv(s) && InPhase(s, w, Reading) && WriteShielded(s, f)
    ensures WriteShielded(Reject(s, w, code), f)
  {
    ShieldFrame(s, Reject(s, w, code), f);
  }

  lemma GiveUpShields(s: System, w: WorkerId, f: Finalizer)
    requires Inv(s) && (InPhase(s, w, Reading) || InPhase(s, w, Putting)) && WriteShielded(s, f)
    ensures WriteShielded(GiveUp(s, w), f)
  {
    ShieldFrame(s, GiveUp(s, w), f);
  }

  lemma PrepareShields(s: System, w: WorkerId, final: FinalObject, f: Finalizer)
    requires Inv(s) && InPhase(s, w, Reading) && WriteShielded(s, f)
    ensures WriteShielded(PrepareStep(s, w, final), f)
  {
    assert RowOk(f.upload, s.rows[f.upload]);
    ShieldFrame(s, PrepareStep(s, w, final), f);
  }

  /** Preparing shields the worker's own write. */
  lemma PrepareShieldsOwn(s: System, w: WorkerId, final: FinalObject)
    requires Inv(s) && InPhase(s, w, Reading)
    ensures
      var t := PrepareStep(s, w, final);
      InPhase(t, w, Putting) ==> WriteShielded(t, t.finalizers[w])
  {
    assert FinalizerOk(s, w) && RowOk(s.finalizers[w].upload, s.rows[s.finalizers[w].upload]);
  }

  lemma PublishShields(s: System, w: WorkerId, f: Finalizer)
    requires Inv(s) && InPhase(s, w, Acknowledged) && s.finalizers[w].final.Some? && WriteShielded(s, f)
    ensures WriteShielded(Publish(s, w), f)
  {
    ShieldFrame(s, Publish(s, w), f);
  }

  lemma ForgetStagingShields(s: System, w: WorkerId, f: Finalizer)
    requires Inv(s) && InPhase(s, w, Published) && WriteShielded(s, f)
    ensures WriteShielded(ForgetStaging(s, w), f)
  {
    assert FinalizerOk(s, w);
    ShieldFrame(s, ForgetStaging(s, w), f);
  }

  lemma ClaimJobShields(s: System, j: JobId, id: UploadId, now: Time, f: Finalizer)
    requires Inv(s) && WriteShielded(s, f) && LiveWrite(s, f)
    ensures WriteShielded(ClaimJob(s, j, id, now), f)
  {
    ShieldFrame(s, ClaimJob(s, j, id, now), f);
  }

  lemma ApplyShields(s: System, j: JobId, stagingOk: bool, finalOk: bool, f: Finalizer)
    requires Inv(s) && WriteShielded(s, f)
    ensures WriteShielded(Apply(s, j, stagingOk, finalOk), f)
  {
    if j in s.jobs {
      assert JobOk(s, s.jobs[j]);
    }
    ShieldFrame(s, Apply(s, j, stagingOk, finalOk), f);
  }

  lemma AnonymiseShields(s: System, user: UserId, now: Time, v: WorkerId)
    requires Inv(s) && WritesShielded(s) && (now <= s.clock ==> NoStrayWrite(s, user))
    requires v in s.finalizers && LiveWrite(s, s.finalizers[v])
    ensures WriteShielded(Anonymise(s, user, now), s.finalizers[v])
  {
    assert WriteShielded(s, s.finalizers[v]) && FinalizerOk(s, v);
    assert RowOk(s.finalizers[v].upload, s.rows[s.finalizers[v].upload]);
    ShieldFrame(s, Anonymise(s, user, now), s.finalizers[v]);
  }

  lemma FinalizerStepShields(s: System, e: Event, f: Finalizer)
    requires Inv(s) && WriteShielded(s, f)
    requires e.ReadRejected? || e.ReadUnavailable? || e.PrepareFinal? || e.PutRejected? || e.PublishVerified?
             || e.FinishStaging?
    ensures WriteShielded(Step(s, e), f)
  {
    var w := e.worker;
    if Step(s, e) != s {
      match e
      case ReadRejected(_, code) => RejectShields(s, w, code, f);
      case ReadUnavailable(_) => GiveUpShields(s, w, f);
      case PrepareFinal(_, hash, url, size) => PrepareShields(s, w, ObjectFor(s.finalizers[w], hash, url, size), f);
      case PutRejected(_) => GiveUpShields(s, w, f);
      case PublishVerified(_) => PublishShields(s, w, f);
      case FinishStaging(_, deleted) =>
        if deleted {
          ForgetStagingShields(s, w, f);
        }
    }
  }

  /** Steps that change no row and no one's attention. */
  lemma QuietStepShields(s: System, e: Event, f: Finalizer)
    requires Inv(s) && WriteShielded(s, f)
    requires e.Tick? || e.CreateUpload? || e.DeleteLands? || e.CleanupCrashes?
    ensures WriteShielded(Step(s, e), f)
  {
    ShieldFrame(s, Step(s, e), f);
  }

  lemma WorkerStepShields(s: System, e: Event, f: Finalizer)
    requires Inv(s) && WriteShielded(s, f)
    requires e.PutLands? || e.PutAcknowledged? || e.FinalizerCrashes?
    ensures WriteShielded(Step(s, e), f)
  {
    ShieldFrame(s, Step(s, e), f);
  }

  lemma OldWriteStaysShielded(s: System, e: Event, v: WorkerId)
    requires Inv(s) && WritesShielded(s) && Allowed(s, e)
    requires v in s.finalizers && LiveWrite(s, s.finalizers[v])
    ensures WriteShielded(Step(s, e), s.finalizers[v])
  {
    var f := s.finalizers[v];
    assert WriteShielded(s, f);
    match e
    case BeginFinalize(w, id, user, now) => BeginShields(s, w, id, user, now, v);
    case ClaimCleanup(j, id, now) => ClaimJobShields(s, j, id, now, f);
    case ApplyCleanup(j, stagingOk, finalOk) => ApplyShields(s, j, stagingOk, finalOk, f);
    case AnonymizeUser(user, now) => AnonymiseShields(s, user, now, v);
    case ReadRejected(_, _) => FinalizerStepShields(s, e, f);
    case ReadUnavailable(_) => FinalizerStepShields(s, e, f);
    case PrepareFinal(_, _, _, _) => FinalizerStepShields(s, e, f);
    case PutRejected(_) => FinalizerStepShields(s, e, f);
    case PublishVerified(_) => FinalizerStepShields(s, e, f);
    case FinishStaging(_, _) => FinalizerStepShields(s, e, f);
    case PutLands(_) => WorkerStepShields(s, e, f);
    case PutAcknowledged(_) => WorkerStepShields(s, e, f);
    case FinalizerCrashes(_) => WorkerStepShields(s, e, f);
    case _ => QuietStepShields(s, e, f);
  }

  /** A write is prepared once; every other step leaves it as it is. */
  lemma WriterOrigin(s: System, e: Event, v: WorkerId)
    requires v in Step(s, e).finalizers && Step(s, e).finalizers[v].final.Some?
    ensures
      || (v in s.finalizers && SameWrite(s.finalizers[v], Step(s, e).finalizers[v]))
      || (e.PrepareFinal? && e.worker == v && InPhase(s, v, Reading) && InPhase(Step(s, e), v, Putting))
  {}

  /** A live write after a step was one before, or has just been prepared. */
  lemma WriteOrigin(s: System, e: Event, v: WorkerId)
    requires v in Step(s, e).finalizers && LiveWrite(Step(s, e), Step(s, e).finalizers[v])
    ensures
      || (v in s.finalizers && SameWrite(s.finalizers[v], Step(s, e).finalizers[v]) && LiveWrite(s, s.finalizers[v]))
      || (e.PrepareFinal? && e.worker == v && InPhase(s, v, Reading) && InPhase(Step(s, e), v, Putting))
  {
    WriterOrigin(s, e, v);
    ClockGrows(s, e);
  }

  lemma ClockGrows(s: System, e: Event)
    ensures s.clock <= Step(s, e).clock
  {}

  lemma StepShields(s: System, e: Event, v: WorkerId)
    requires Inv(s) && WritesShielded(s) && Allowed(s, e)
    requires v in Step(s, e).finalizers && LiveWrite(Step(s, e), Step(s, e).finalizers[v])
    ensures WriteShielded(Step(s, e), Step(s, e).finalizers[v])
  {
    WriteOrigin(s, e, v);
    if v in s.finalizers && SameWrite(s.finalizers[v], Step(s, e).finalizers[v]) && LiveWrite(s, s.finalizers[v]) {
      OldWriteStaysShielded(s, e, v);
    } else {
      PrepareShieldsOwn(s, v, ObjectFor(s.finalizers[v], e.hash, e.publicUrl, e.sizeBytes));
    }
  }

  // --------------------------------------------------- objects stay answered for

  /** Rows go on answering, unless cleanup records that the object is gone. */
  lemma BeginTracks(s: System, e: Event, key: ObjectKey)
    requires Inv(s) && Answered(s, key) && e.BeginFinalize?
    ensures Answered(Step(s, e), key)
  {
    assert RowOk(key.upload, s.rows[key.upload]);
  }

  lemma PublishTracks(s: System, e: Event, key: ObjectKey)
    requires Inv(s) && Answered(s, key) && (e.PublishVerified? || e.FinishStaging?)
    ensures Answered(Step(s, e), key)
  {
    assert RowOk(key.upload, s.rows[key.upload]);
  }

  lemma FinalizerStepTracks(s: System, e: Event, key: ObjectKey)
    requires Inv(s) && Answered(s, key)
    requires e.ReadRejected? || e.ReadUnavailable? || e.PrepareFinal? || e.PutRejected?
    ensures Answered(Step(s, e), key)
  {
    assert RowOk(key.upload, s.rows[key.upload]);
  }

  lemma CleanupStepTracks(s: System, e: Event, key: ObjectKey)
    requires Inv(s) && GoneStaysGone(s) && Answered(s, key) && key in s.store
    requires e.ClaimCleanup? || e.ApplyCleanup?
    ensures Answered(Step(s, e), key)
  {
    if e.ApplyCleanup? && e.job in s.jobs {
      assert JobOk(s, s.jobs[e.job]) && StaysGone(s, s.jobs[e.job]);
    }
  }

  lemma AnonymiseTracks(s: System, user: UserId, now: Time, key: ObjectKey)
    requires Inv(s) && Answered(s, key)
    ensures Answered(Anonymise(s, user, now), key)
  {
    assert RowOk(key.upload, s.rows[key.upload]);
  }

  lemma LandTracks(s: System, w: WorkerId, key: ObjectKey)
    requires Inv(s) && WritesShielded(s) && NoOrphans(s) && key in Land(s, w).store
    requires w in s.finalizers ==> s.finalizers[w].lease > s.clock
    ensures Answered(Land(s, w), key)
  {
    if key !in s.store {
      assert WriteShielded(s, s.finalizers[w]) && FinalizerOk(s, w);
    }
  }

  lemma QuietStepTracks(s: System, e: Event, key: ObjectKey)
    requires Answered(s, key)
    requires e.Tick? || e.CreateUpload? || e.PutAcknowledged? || e.FinalizerCrashes? || e.DeleteLands?
             || e.CleanupCrashes?
    ensures Answered(Step(s, e), key)
  {}

  /** Only a put adds an object. */
  lemma StoreGrowsByPuts(s: System, e: Event)
    ensures !e.PutLands? ==> Step(s, e).store <= s.store
  {}

  lemma StepTracks(s: System, e: Event, key: ObjectKey)
    requires Inv(s) && TimedInv(s) && Allowed(s, e) && key in Step(s, e).store
    ensures Answered(Step(s, e), key)
  {
    if e.PutLands? {
      LandTracks(s, e.worker, key);
    } else {
      StoreGrowsByPuts(s, e);
      match e
      case AnonymizeUser(user, now) => AnonymiseTracks(s, user, now, key);
      case ClaimCleanup(_, _, _) => CleanupStepTracks(s, e, key);
      case ApplyCleanup(_, _, _) => CleanupStepTracks(s, e, key);
      case BeginFinalize(_, _, _, _) => BeginTracks(s, e, key);
      case ReadRejected(_, _) => FinalizerStepTracks(s, e, key);
      case ReadUnavailable(_) => FinalizerStepTracks(s, e, key);
      case PrepareFinal(_, _, _, _) => FinalizerStepTracks(s, e, key);
      case PutRejected(_) => FinalizerStepTracks(s, e, key);
      case PublishVerified(_) => PublishTracks(s, e, key);
      case FinishStaging(_, _) => PublishTracks(s, e, key);
      case _ => QuietStepTracks(s, e, key);
    }
  }

  /** Under a running lease no put brings back what cleanup has deleted. */
  lemma LandStaysGone(s: System, w: WorkerId, j: JobId)
    requires Inv(s) && TimedInv(s) && j in s.jobs && (w in s.finalizers ==> s.finalizers[w].lease > s.clock)
    ensures StaysGone(Land(s, w), s.jobs[j])
  {
    assert StaysGone(s, s.jobs[j]) && JobOk(s, s.jobs[j]);
    if w in s.finalizers && s.finalizers[w].final.Some? {
      assert WriteShielded(s, s.finalizers[w]) && FinalizerOk(s, w);
    }
  }

  lemma StepStaysGone(s: System, e: Event, j: JobId)
    requires Inv(s) && TimedInv(s) && Allowed(s, e) && j in Step(s, e).jobs
    ensures StaysGone(Step(s, e), Step(s, e).jobs[j])
  {
    assert j in s.jobs ==> StaysGone(s, s.jobs[j]);
    if e.PutLands? {
      LandStaysGone(s, e.worker, j);
    } else {
      StoreGrowsByPuts(s, e);
      if Step(s, e).jobs[j].finalGone && Step(s, e).jobs[j].finalKey.Some? {
        JobOrigin(s, e, j);
      }
    }
  }

  /** A job's deletion is noted when it takes effect, and its key never changes. */
  lemma JobOrigin(s: System, e: Event, j: JobId)
    requires j in Step(s, e).jobs && Step(s, e).jobs[j].finalGone && Step(s, e).jobs[j].finalKey.Some?
    ensures
      var t := Step(s, e);
      || (j in s.jobs && s.jobs[j].finalGone && s.jobs[j].finalKey == t.jobs[j].finalKey)
      || t.jobs[j].finalKey.value !in t.store
  {}

  lemma StepKeepsTimed(s: System, e: Event)
    requires Inv(s) && TimedInv(s) && Allowed(s, e)
    ensures TimedInv(Step(s, e))
  {
    var t := Step(s, e);
    forall v | v in t.finalizers && LiveWrite(t, t.finalizers[v])
      ensures WriteShielded(t, t.finalizers[v])
    {
      StepShields(s, e, v);
    }
    forall key | key in t.store
      ensures Answered(t, key)
    {
      StepTracks(s, e, key);
    }
    forall j | j in t.jobs
      ensures StaysGone(t, t.jobs[j])
    {
      StepStaysGone(s, e, j);
    }
  }

  lemma {:induction false} RunKeepsTimed(s: System, es: seq<Event>)
    requires Inv(s) && TimedInv(s) && AllowedRun(s, es)
    ensures Inv(Run(s, es)) && TimedInv(Run(s, es))
    decreases |es|
  {
    if es != [] {
      StepKeepsInv(s, es[0]);
      StepKeepsTimed(s, es[0]);
      RunKeepsTimed(Step(s, es[0]), es[1..]);
    }
  }

  /** With timely puts, no claim that undercuts a live write, and no account anonymised while it has a stray
      write, no object is orphaned. */
  lemma AllowedRunsLeaveNoOrphans(es: seq<Event>)
    requires AllowedRun(EMPTY_SYSTEM, es)
    ensures NoOrphans(Run(EMPTY_SYSTEM, es))
  {
    RunKeepsTimed(EMPTY_SYSTEM, es);
  }

  // ------------------------------------------- exactly when a step is safe

  /** A row that cleanup may take, now or later, before the lease of a put that can still land runs out. */
  predicate Exposed(s: System, v: WorkerId) {
    && v in s.finalizers && LiveWrite(s, s.finalizers[v])
    && s.finalizers[v].upload in s.rows
    && s.finalizers[v].final.value.key.FinalKey?
    && s.finalizers[v].final.value.key.upload == s.finalizers[v].upload
    && var row := s.rows[s.finalizers[v].upload];
       && FinalDeletionDue(row)
       && (row.cleanupLease.Some? ==> row.cleanupLease.value < s.finalizers[v].lease)
       && row.final.Some? && row.final.value.key == s.finalizers[v].final.value.key
  }

  /** When cleanup may take the row at the earliest. */
  function DueAt(s: System, id: UploadId): Time
    requires id in s.rows
  {
    if s.rows[id].cleanupLease.Some? && s.rows[id].cleanupLease.value > s.clock
    then s.rows[id].cleanupLease.value else s.clock
  }

  /** The orphaning continuation: cleanup removes the object and forgets its key, then the put lands. */
  function OrphanPlan(s: System, v: WorkerId, j: JobId): seq<Event>
    requires Exposed(s, v)
  {
    var id := s.finalizers[v].upload;
    [Tick(DueAt(s, id))] + ([ClaimCleanup(j, id, DueAt(s, id))]
    + ([DeleteLands(j)] + ([ApplyCleanup(j, true, true)] + ([PutLands(v)] + []))))
  }

  lemma CleanupForgetsExposed(s: System, v: WorkerId, j: JobId)
    requires Exposed(s, v) && j !in s.jobs && DueAt(s, s.finalizers[v].upload) == s.clock
    ensures
      var id := s.finalizers[v].upload;
      var t := CleanedBy(s, j, id);
      && id in t.rows && t.rows[id].final.None? && t.finalizers == s.finalizers && t.clock == s.clock
  {
    var id := s.finalizers[v].upload;
    var s1 := ClaimJob(s, j, id, s.clock);
    assert s1.jobs[j].finalKey.Some? && s1.rows[id].cleanupLease == Some(s1.jobs[j].lease);
  }

  function CleanedBy(s: System, j: JobId, id: UploadId): System {
    Apply(LandDelete(ClaimJob(s, j, id, s.clock), j), j, true, true)
  }

  lemma ClaimCons(s: System, j: JobId, id: UploadId, rest: seq<Event>)
    ensures
      var es := [ClaimCleanup(j, id, s.clock)] + rest;
      && Run(s, es) == Run(ClaimJob(s, j, id, s.clock), rest)
      && (AllowedRun(s, es) <==> AllowedRun(ClaimJob(s, j, id, s.clock), rest))
  {
    AllowedCons(s, ClaimCleanup(j, id, s.clock), rest);
  }

  lemma DeleteCons(s: System, j: JobId, rest: seq<Event>)
    ensures
      var es := [DeleteLands(j)] + ([ApplyCleanup(j, true, true)] + rest);
      && Run(s, es) == Run(Apply(LandDelete(s, j), j, true, true), rest)
      && (AllowedRun(s, es) <==> AllowedRun(Apply(LandDelete(s, j), j, true, true), rest))
  {
    AllowedCons(LandDelete(s, j), ApplyCleanup(j, true, true), rest);
    AllowedCons(s, DeleteLands(j), [ApplyCleanup(j, true, true)] + rest);
  }

  /** The three steps of a cleanup are always allowed. */
  lemma CleanupRun(s: System, j: JobId, id: UploadId, rest: seq<Event>)
    ensures
      var es := [ClaimCleanup(j, id, s.clock)] + ([DeleteLands(j)] + ([ApplyCleanup(j, true, true)] + rest));
      && Run(s, es) == Run(CleanedBy(s, j, id), rest)
      && (AllowedRun(s, es) <==> AllowedRun(CleanedBy(s, j, id), rest))
  {
    DeleteCons(ClaimJob(s, j, id, s.clock), j, rest);
    ClaimCons(s, j, id, [DeleteLands(j)] + ([ApplyCleanup(j, true, true)] + rest));
  }

  lemma DueWriteOrphans(s: System, v: WorkerId, j: JobId)
    requires Exposed(s, v) && j !in s.jobs && DueAt(s, s.finalizers[v].upload) == s.clock
    ensures
      var es := [ClaimCleanup(j, s.finalizers[v].upload, s.clock)]
                + ([DeleteLands(j)] + ([ApplyCleanup(j, true, true)] + ([PutLands(v)] + [])));
      AllowedRun(s, es) && !NoOrphans(Run(s, es))
  {
    var id, key := s.finalizers[v].upload, s.finalizers[v].final.value.key;
    var cleaned := CleanedBy(s, j, id);
    CleanupForgetsExposed(s, v, j);
    assert key in Land(cleaned, v).store && !Answered(Land(cleaned, v), key);
    AllowedCons(cleaned, PutLands(v), []);
    CleanupRun(s, j, id, [PutLands(v)] + []);
  }

  /** An exposed write orphans its object in a run that is allowed throughout. */
  lemma ExposedWriteOrphans(s: System, v: WorkerId) returns (es: seq<Event>)
    requires Exposed(s, v)
    ensures AllowedRun(s, es) && !NoOrphans(Run(s, es))
  {
    var j := FreshId(s.jobs.Keys);
    var due := s.(clock := DueAt(s, s.finalizers[v].upload));
    DueWriteOrphans(due, v, j);
    es := OrphanPlan(s, v, j);
    AllowedCons(s, Tick(due.clock), [ClaimCleanup(j, s.finalizers[v].upload, due.clock)]
                + ([DeleteLands(j)] + ([ApplyCleanup(j, true, true)] + ([PutLands(v)] + []))));
  }

  lemma UndercutExposes(s: System, w: WorkerId, id: UploadId, user: UserId, now: Time, v: WorkerId)
    requires Inv(s) && WritesShielded(s) && Claims(s, w, id, user, now)
    requires OutlivedBy(s, id, now + FINALIZE_LEASE_MS, v)
    ensures Exposed(Begin(s, w, id, user, now), v)
  {
    assert WriteShielded(s, s.finalizers[v]) && FinalizerOk(s, v);
  }

  /** A claim is safe for the object store if and only if its lease does not end before that of a live write
      on the row: otherwise a timely continuation orphans an object, and no allowed continuation does. */
  lemma ClaimIsSafeIff(s: System, w: WorkerId, id: UploadId, user: UserId, now: Time)
    requires Inv(s) && TimedInv(s)
    ensures
      !Undercuts(s, w, id, user, now) <==>
      (forall es :: AllowedRun(Begin(s, w, id, user, now), es) ==> NoOrphans(Run(Begin(s, w, id, user, now), es)))
  {
    var e := BeginFinalize(w, id, user, now);
    if Undercuts(s, w, id, user, now) {
      var v :| v in s.finalizers && OutlivedBy(s, id, now + FINALIZE_LEASE_MS, v);
      UndercutExposes(s, w, id, user, now, v);
      var es := ExposedWriteOrphans(Begin(s, w, id, user, now), v);
    } else {
      StepKeepsInv(s, e);
      StepKeepsTimed(s, e);
      forall es | AllowedRun(Step(s, e), es)
        ensures NoOrphans(Run(Step(s, e), es))
      {
        RunKeepsTimed(Step(s, e), es);
      }
    }
  }

  function Later(a: Time, b: Time): Time { if a > b then a else b }

  /** The row's own cleanup lease shows it: a claim whose lease reaches that far undercuts no write. */
  lemma CleanupLeaseShows(s: System, w: WorkerId, id: UploadId, user: UserId, now: Time)
    requires WritesShielded(s) && id in s.rows
    requires s.rows[id].cleanupLease.Some? ==>
      s.rows[id].cleanupLease.value <= Later(s.clock, now + FINALIZE_LEASE_MS)
    ensures !Undercuts(s, w, id, user, now)
  {
    forall v | v in s.finalizers
      ensures !OutlivedBy(s, id, now + FINALIZE_LEASE_MS, v) || !Claims(s, w, id, user, now)
    {
      assert LiveWrite(s, s.finalizers[v]) ==> WriteShielded(s, s.finalizers[v]);
    }
  }

  /** The only worker's put is still under way, under the lease that the row's cleanup lease shows. */
  function SoleWriter(id: UploadId, u: Upload, clock: Time): System
    requires u.final.Some? && u.cleanupLease.Some?
  {
    var lease := u.cleanupLease.value;
    System(clock, map[id := u], {},
           map[1 := Finalizer(u.userId, id, lease, lease - FINALIZE_LEASE_MS, Ended, u.final, false)], map[])
  }

  lemma ShorterClaimMayOrphan(id: UploadId, u: Upload, clock: Time, now: Time)
    requires RowOk(id, u) && u.status == Pending && FinalDeletionDue(u) && now <= clock && now < u.expiresAt
    requires u.cleanupLease.Some? && u.cleanupLease.value <= clock + FINALIZE_LEASE_MS
    requires u.cleanupLease.value > Later(clock, now + FINALIZE_LEASE_MS)
    ensures
      var s := SoleWriter(id, u, clock);
      Inv(s) && TimedInv(s) && Undercuts(s, 2, id, u.userId, now)
  {
    var s := SoleWriter(id, u, clock);
    assert OutlivedBy(s, id, now + FINALIZE_LEASE_MS, 1);
  }

  ghost predicate Fits(s: System, id: UploadId, u: Upload, clock: Time) {
    Inv(s) && TimedInv(s) && s.clock == clock && id in s.rows && s.rows[id] == u
  }

  /** So for a released, prepared row the caller can tell before the call: a claim undercuts no write, in any
      system that the row fits, if and only if the row's cleanup lease has run out or reaches no further
      than the claim's own lease. */
  lemma ReleasedRowShowsIff(id: UploadId, u: Upload, clock: Time, now: Time)
    requires RowOk(id, u) && u.status == Pending && FinalDeletionDue(u) && now <= clock && now < u.expiresAt
    requires u.cleanupLease.Some? && u.cleanupLease.value <= clock + FINALIZE_LEASE_MS
    ensures
      u.cleanupLease.value <= Later(clock, now + FINALIZE_LEASE_MS) <==>
      (forall s: System, w: WorkerId :: Fits(s, id, u, clock) ==> !Undercuts(s, w, id, u.userId, now))
  {
    if u.cleanupLease.value <= Later(clock, now + FINALIZE_LEASE_MS) {
      forall s: System, w: WorkerId | Fits(s, id, u, clock)
        ensures !Undercuts(s, w, id, u.userId, now)
      {
        CleanupLeaseShows(s, w, id, u.userId, now);
      }
    } else {
      ShorterClaimMayOrphan(id, u, clock, now);
      assert Fits(SoleWriter(id, u, clock), id, u, clock);
    }
  }

  lemma StrayWriteExposes(s: System, user: UserId, now: Time, v: WorkerId)
    requires Inv(s) && WritesShielded(s) && now <= s.clock
    requires v in s.finalizers && LiveWrite(s, s.finalizers[v]) && s.finalizers[v].user == user
    requires s.finalizers[v].upload in s.rows && s.rows[s.finalizers[v].upload].status != Processing
    ensures Exposed(Anonymise(s, user, now), v)
  {
    assert WriteShielded(s, s.finalizers[v]) && FinalizerOk(s, v);
    assert RowOk(s.finalizers[v].upload, s.rows[s.finalizers[v].upload]);
  }

  /** The upload statements of account deletion, taken alone, are safe for the object store if and only if the
      account has no stray write: with one, a timely continuation orphans an object; without one, no
      allowed continuation does. */
  lemma AnonymizeIsSafeIff(s: System, user: UserId, now: Time)
    requires Inv(s) && TimedInv(s) && now <= s.clock
    ensures
      NoStrayWrite(s, user) <==>
      (forall es :: AllowedRun(Anonymise(s, user, now), es) ==> NoOrphans(Run(Anonymise(s, user, now), es)))
  {
    var e := AnonymizeUser(user, now);
    if NoStrayWrite(s, user) {
      StepKeepsInv(s, e);
      StepKeepsTimed(s, e);
      forall es | AllowedRun(Step(s, e), es)
        ensures NoOrphans(Run(Step(s, e), es))
      {
        RunKeepsTimed(Step(s, e), es);
      }
    } else {
      var v :| v in s.finalizers && LiveWrite(s, s.finalizers[v]) && s.finalizers[v].user == user
               && s.finalizers[v].upload in s.rows && s.rows[s.finalizers[v].upload].status != Processing;
      StrayWriteExposes(s, user, now, v);
      var es := ExposedWriteOrphans(Anonymise(s, user, now), v);
    }
  }

  // ------------------------------------------------------------- witness runs

  /** Worker 1 prepares at 5 and its put is reported failed, but may still land; worker 2 comes late with the
      moment 0, so that the cleanup lease drops from 120005 to 120000. */
  const LATE_CLAIM_RUN: seq<Event> :=
    [CreateUpload(1, 7, 0)] + ([Tick(5)] + ([BeginFinalize(1, 1, 7, 5)] + ([PrepareFinal(1, "hash", "url", 10)]
    + ([PutRejected(1)] + []))))

  lemma PutReportedFailed() returns (s: System)
    ensures Run(EMPTY_SYSTEM, LATE_CLAIM_RUN) == s && AllowedRun(EMPTY_SYSTEM, LATE_CLAIM_RUN)
    ensures s.clock == 5 && s.finalizers.Keys == {1} && 1 in s.rows
    ensures s.finalizers[1].upload == 1 && s.finalizers[1].final.Some? && s.finalizers[1].lease == 120005
    ensures s.rows[1].userId == 7 && s.rows[1].status == Pending && s.rows[1].expiresAt == 300000
  {
    var end := [PutRejected(1)] + [];
    var s3 := FirstClaim([PrepareFinal(1, "hash", "url", 10)] + end);
    var s4 := PreparedWrite(s3);
    s := GiveUp(s4, 1);
    AllowedCons(s4, PutRejected(1), []);
    AllowedCons(s3, PrepareFinal(1, "hash", "url", 10), end);
  }

  lemma PreparedWrite(s: System) returns (t: System)
    requires s.finalizers == map[1 := Finalizer(7, 1, 120005, 5, Reading, None, false)]
    requires s.rows == map[1 := PendingRow(1, 7, 300000, 0).(status := Processing, processingLease := Some(120005))]
    ensures t == Step(s, PrepareFinal(1, "hash", "url", 10)) && t.clock == s.clock
    ensures t.finalizers.Keys == {1} && t.finalizers[1].final.Some? && InPhase(t, 1, Putting)
    ensures t.finalizers[1].upload == 1 && t.finalizers[1].lease == 120005
    ensures 1 in t.rows && t.rows[1].userId == 7 && t.rows[1].expiresAt == 300000 && FenceHeld(t.rows[1], 120005)
  {
    t := PrepareStep(s, 1, ObjectFor(s.finalizers[1], "hash", "url", 10));
  }

  lemma FirstClaim(rest: seq<Event>) returns (s: System)
    ensures
      var es := [CreateUpload(1, 7, 0)] + ([Tick(5)] + ([BeginFinalize(1, 1, 7, 5)] + rest));
      Run(EMPTY_SYSTEM, es) == Run(s, rest) && (AllowedRun(EMPTY_SYSTEM, es) <==> AllowedRun(s, rest))
    ensures s.clock == 5 && s.finalizers == map[1 := Finalizer(7, 1, 120005, 5, Reading, None, false)]
    ensures s.rows == map[1 := PendingRow(1, 7, 300000, 0).(status := Processing, processingLease := Some(120005))]
    ensures s.store == {} && s.jobs == map[]
  {
    var s1 := Create(EMPTY_SYSTEM, 1, 7, 0);
    var s2 := s1.(clock := 5);
    s := Begin(s2, 1, 1, 7, 5);
    AllowedCons(s2, BeginFinalize(1, 1, 7, 5), rest);
    AllowedCons(s1, Tick(5), [BeginFinalize(1, 1, 7, 5)] + rest);
    AllowedCons(EMPTY_SYSTEM, CreateUpload(1, 7, 0), [Tick(5)] + ([BeginFinalize(1, 1, 7, 5)] + rest));
  }

  /** A late claim orphans an object although every put is timely and no account is deleted. */
  lemma LateClaimOrphans()
    ensures
      var s := Run(EMPTY_SYSTEM, LATE_CLAIM_RUN);
      && AllowedRun(EMPTY_SYSTEM, LATE_CLAIM_RUN)
      && Undercuts(s, 2, 1, 7, 0)
      && exists es :: AllowedRun(Begin(s, 2, 1, 7, 0), es) && !NoOrphans(Run(Begin(s, 2, 1, 7, 0), es))
  {
    var s := PutReportedFailed();
    assert OutlivedBy(s, 1, FINALIZE_LEASE_MS, 1);
    RunKeepsTimed(EMPTY_SYSTEM, LATE_CLAIM_RUN);
    ClaimIsSafeIff(s, 2, 1, 7, 0);
  }

  /** In the same state the statements of account deletion would orphan it too. */
  lemma DeletionDuringFailedPutOrphans()
    ensures
      var s := Run(EMPTY_SYSTEM, LATE_CLAIM_RUN);
      && !NoStrayWrite(s, 7)
      && exists es :: AllowedRun(Anonymise(s, 7, 5), es) && !NoOrphans(Run(Anonymise(s, 7, 5), es))
  {
    var s := PutReportedFailed();
    RunKeepsTimed(EMPTY_SYSTEM, LATE_CLAIM_RUN);
    assert FinalizerOk(s, 1);
    assert LiveWrite(s, s.finalizers[1]);
    AnonymizeIsSafeIff(s, 7, 5);
  }
}
