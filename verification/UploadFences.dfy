/** What every run of the upload pipeline keeps, and exactly when a lost processing lease comes back. */
module UploadFences {
  import opened Common
  import opened UploadTable
  import opened UploadPipeline

  /** In every interleaving, whatever the store's timing and however old the callers' moments: a verified
      row's object is in the store, no two finalizers hold one row under a running lease, a prepared row's
      cleanup lease is its processing lease, and the check constraints hold. */
  lemma ReachableStatesAreSafe(es: seq<Event>)
    ensures
      var s := Run(EMPTY_SYSTEM, es);
      && VerifiedPresent(s)
      && Exclusive(s)
      && (forall id :: id in s.rows ==>
            && LeaseFenced(s.rows[id])
            && FinalDeletionStateCheck(s.rows[id])
            && FieldsCheck(s.rows[id]))
  {
    RunKeepsInv(EMPTY_SYSTEM, es);
    var s := Run(EMPTY_SYSTEM, es);
    assert forall id :: id in s.rows ==> RowOk(id, s.rows[id]);
  }

  /** Cleanup takes no row whose finalize lease is live. */
  lemma CleanupSparesLiveFinalize(es: seq<Event>, id: UploadId, now: Time)
    ensures
      var s := Run(EMPTY_SYSTEM, es);
      id in s.rows && s.rows[id].status == Processing && CleanupDue(s.rows[id], now) ==>
        AtOrBefore(s.rows[id].processingLease, now)
  {
    RunKeepsInv(EMPTY_SYSTEM, es);
    var s := Run(EMPTY_SYSTEM, es);
    assert id in s.rows ==> RowOk(id, s.rows[id]);
  }

  // ------------------------------------------------------------ closed rows

  lemma ReadStepEvolves(s: System, e: Event)
    requires e.ReadRejected? || e.ReadUnavailable? || e.PrepareFinal?
    ensures Evolves(s.rows, Step(s, e).rows)
  {
    if InPhase(s, e.worker, Reading) {
      var f := s.finalizers[e.worker];
      FinalizerEvolves(
        s.rows, f.upload, f.user,
        if e.PrepareFinal? then ObjectFor(f, e.hash, e.publicUrl, e.sizeBytes) else ObjectFor(f, "", "", 0),
        if e.ReadRejected? then e.code else "", f.lease, f.now);
    }
  }

  lemma PutStepEvolves(s: System, e: Event)
    requires e.PutRejected? || e.PublishVerified? || e.FinishStaging?
    ensures Evolves(s.rows, Step(s, e).rows)
  {
    if e.worker in s.finalizers {
      var f := s.finalizers[e.worker];
      FinalizerEvolves(
        s.rows, f.upload, f.user, if f.final.Some? then f.final.value else ObjectFor(f, "", "", 0), "", f.lease, f.now);
    }
  }

  lemma CleanupStepEvolves(s: System, e: Event)
    requires JobsOk(s) && (e.ClaimCleanup? || e.ApplyCleanup?)
    ensures Evolves(s.rows, Step(s, e).rows)
  {
    if e.ClaimCleanup? {
      if e.upload in s.rows {
        CleanupEvolves(
          s.rows, e.upload, e.now + CLEANUP_LEASE_MS, JobResult(JobFor(e.upload, s.rows[e.upload], e.now), false, false));
      }
    } else if e.job in s.jobs {
      assert JobOk(s, s.jobs[e.job]);
      CleanupEvolves(s.rows, s.jobs[e.job].upload, 0, JobResult(s.jobs[e.job], e.stagingOk, e.finalOk));
    }
  }

  lemma StepEvolves(s: System, e: Event)
    requires Inv(s)
    ensures Evolves(s.rows, Step(s, e).rows)
  {
    if e.BeginFinalize? {
      ClaimEvolves(s.rows, e.upload, e.user, e.now, e.now + FINALIZE_LEASE_MS);
    } else if e.ReadRejected? || e.ReadUnavailable? || e.PrepareFinal? {
      ReadStepEvolves(s, e);
    } else if e.PutRejected? || e.PublishVerified? || e.FinishStaging? {
      PutStepEvolves(s, e);
    } else if e.ClaimCleanup? || e.ApplyCleanup? {
      CleanupStepEvolves(s, e);
    } else if e.AnonymizeUser? {
      AnonymizedEvolves(s.rows, e.user, e.now);
    }
  }

  lemma VerifiedFinalizerStep(s: System, e: Event, id: UploadId)
    requires id in s.rows && s.rows[id].status == Verified
    requires e.BeginFinalize? || e.ReadRejected? || e.ReadUnavailable? || e.PrepareFinal? || e.PutRejected?
    ensures id in Step(s, e).rows && Step(s, e).rows[id].status == Verified
  {}

  lemma VerifiedStep(s: System, e: Event, id: UploadId)
    requires id in s.rows && s.rows[id].status == Verified
    requires e.AnonymizeUser? ==> e.user != s.rows[id].userId
    ensures id in Step(s, e).rows && Step(s, e).rows[id].status == Verified
  {
    if e.BeginFinalize? || e.ReadRejected? || e.ReadUnavailable? || e.PrepareFinal? || e.PutRejected? {
      VerifiedFinalizerStep(s, e, id);
    }
  }

  /** Failed is absorbing, verified is left only by deleting the owner, and rows never disappear. */
  lemma {:induction false} FailedIsAbsorbing(s: System, es: seq<Event>, id: UploadId)
    requires Inv(s) && id in s.rows
    ensures
      var t := Run(s, es);
      && id in t.rows && t.rows[id].userId == s.rows[id].userId
      && (s.rows[id].status == Failed ==> t.rows[id].status == Failed)
      && (s.rows[id].status == Verified && (forall e :: e in es && e.AnonymizeUser? ==> e.user != s.rows[id].userId) ==>
            t.rows[id].status == Verified && t.rows[id].final == s.rows[id].final)
    decreases |es|
  {
    if es != [] {
      StepKeepsInv(s, es[0]);
      StepEvolves(s, es[0]);
      if s.rows[id].status == Verified && (es[0].AnonymizeUser? ==> es[0].user != s.rows[id].userId) {
        VerifiedStep(s, es[0], id);
      }
      FailedIsAbsorbing(Step(s, es[0]), es[1..], id);
    }
  }

  // ----------------------------------------------------------- lost fences

  /** The step claims the worker's row at the very moment of the worker's own claim, so that the two leases
      are equal. */
  predicate Regains(s: System, e: Event, w: WorkerId)
    requires w in s.finalizers
  {
    var f := s.finalizers[w];
    && Active(f) && e.BeginFinalize? && e.upload == f.upload && e.now == f.now
    && e.worker !in s.finalizers && e.now <= s.clock
    && Claim(s.rows, e.upload, e.user, e.now, e.now + FINALIZE_LEASE_MS).0.Claimed?
  }

  lemma BeginRegains(s: System, e: Event, w: WorkerId)
    requires Inv(s) && w in s.finalizers && !Holds(s, w) && e.BeginFinalize?
    ensures w in Step(s, e).finalizers && (Holds(Step(s, e), w) <==> Regains(s, e, w))
  {
    assert FinalizerOk(s, w);
  }

  /** No other step hands a fence out: rows that it changes keep their processing lease or lose it. */
  predicate FenceKept(u: Upload, v: Upload) { v.processingLease == u.processingLease || v.processingLease.None? }

  lemma OtherFinalizerStepsKeepFences(s: System, e: Event, id: UploadId)
    requires e.ReadRejected? || e.ReadUnavailable? || e.PrepareFinal? || e.PutRejected? || e.PublishVerified?
             || e.FinishStaging?
    requires id in s.rows
    ensures id in Step(s, e).rows && FenceKept(s.rows[id], Step(s, e).rows[id])
    ensures Step(s, e).rows[id].status == Processing ==> s.rows[id].status == Processing
  {}

  lemma OtherStepsKeepFences(s: System, e: Event, id: UploadId)
    requires !e.BeginFinalize? && id in s.rows
    ensures id in Step(s, e).rows && FenceKept(s.rows[id], Step(s, e).rows[id])
    ensures Step(s, e).rows[id].status == Processing ==> s.rows[id].status == Processing
  {
    if e.ReadRejected? || e.ReadUnavailable? || e.PrepareFinal? || e.PutRejected? || e.PublishVerified?
       || e.FinishStaging? {
      OtherFinalizerStepsKeepFences(s, e, id);
    }
  }

  lemma OtherStepsKeepWorkers(s: System, e: Event, w: WorkerId)
    requires w in s.finalizers
    ensures
      var t := Step(s, e);
      && w in t.finalizers
      && t.finalizers[w].upload == s.finalizers[w].upload && t.finalizers[w].lease == s.finalizers[w].lease
      && t.finalizers[w].now == s.finalizers[w].now
      && (Active(t.finalizers[w]) ==> Active(s.finalizers[w]))
  {}

  /** A worker that has lost the fence gets it back in a step if and only if that step claims the row at the
      moment of the worker's own claim. */
  lemma FenceRegainedIff(s: System, e: Event, w: WorkerId)
    requires Inv(s) && w in s.finalizers && !Holds(s, w)
    ensures w in Step(s, e).finalizers && (Holds(Step(s, e), w) <==> Regains(s, e, w))
  {
    assert FinalizerOk(s, w);
    if e.BeginFinalize? {
      BeginRegains(s, e, w);
    } else {
      OtherStepsKeepFences(s, e, s.finalizers[w].upload);
      OtherStepsKeepWorkers(s, e, w);
    }
  }

  /** Without such a claim a lost fence stays lost, and then the worker changes no row. */
  lemma {:induction false} LostFenceStaysLost(s: System, es: seq<Event>, w: WorkerId)
    requires Inv(s) && w in s.finalizers && !Holds(s, w)
    requires forall i :: 0 <= i < |es| && es[i].BeginFinalize? && es[i].upload == s.finalizers[w].upload ==>
      es[i].now != s.finalizers[w].now
    ensures w in Run(s, es).finalizers && !Holds(Run(s, es), w)
    decreases |es|
  {
    if es != [] {
      StepKeepsInv(s, es[0]);
      FenceRegainedIff(s, es[0], w);
      OtherStepsKeepWorkers(s, es[0], w);
      LostFenceStaysLost(Step(s, es[0]), es[1..], w);
    }
  }

  /** A fence lost while its lease still runs is lost for good, whatever is claimed later: the row is closed
      or the worker has ended. */
  lemma {:induction false} FenceLostEarlyStaysLost(s: System, es: seq<Event>, w: WorkerId)
    requires Inv(s) && w in s.finalizers && !Holds(s, w)
    requires s.finalizers[w].lease > s.clock || !Active(s.finalizers[w]) || Closed(s.rows[s.finalizers[w].upload])
    ensures w in Run(s, es).finalizers && !Holds(Run(s, es), w)
    decreases |es|
  {
    assert FinalizerOk(s, w);
    if es != [] {
      StepKeepsInv(s, es[0]);
      StepEvolves(s, es[0]);
      OtherStepsKeepWorkers(s, es[0], w);
      assert FinalizerOk(Step(s, es[0]), w);
      FenceLostEarlyStaysLost(Step(s, es[0]), es[1..], w);
    }
  }

  lemma SupersededFinalizerChangesNothing(s: System, w: WorkerId, e: Event)
    requires Inv(s) && w in s.finalizers && !Holds(s, w)
    requires e.ReadRejected? || e.ReadUnavailable? || e.PrepareFinal? || e.PutRejected? || e.PublishVerified?
    requires e.worker == w
    ensures Step(s, e).rows == s.rows
    ensures
      e.PublishVerified? && InPhase(s, w, Acknowledged) && InPhase(Step(s, e), w, Published) ==>
        var f := s.finalizers[w];
        s.rows[f.upload].status == Verified && s.rows[f.upload].final.value.key == f.final.value.key
  {
    assert FinalizerOk(s, w) && RowOk(s.finalizers[w].upload, s.rows[s.finalizers[w].upload]);
  }

  /** Worker 1 claims at 0 and its lease runs out; worker 2 claims and gives up; worker 3 comes late with the
      moment 0. */
  const LATE_CLAIM_RUN: seq<Event> :=
    [CreateUpload(1, 7, 0)] + ([BeginFinalize(1, 1, 7, 0)] + ([Tick(120000)] + ([BeginFinalize(2, 1, 7, 120000)]
    + ([ReadUnavailable(2)] + ([BeginFinalize(3, 1, 7, 0)] + [])))))

  lemma FirstClaim(rest: seq<Event>) returns (s: System)
    ensures Run(EMPTY_SYSTEM, [CreateUpload(1, 7, 0)] + ([BeginFinalize(1, 1, 7, 0)] + rest)) == Run(s, rest)
    ensures s.clock == 0 && s.finalizers == map[1 := Finalizer(7, 1, 120000, 0, Reading, None, false)]
    ensures s.rows == map[1 := PendingRow(1, 7, 300000, 0).(status := Processing, processingLease := Some(120000))]
  {
    var s1 := Create(EMPTY_SYSTEM, 1, 7, 0);
    s := Begin(s1, 1, 1, 7, 0);
    RunCons(s1, BeginFinalize(1, 1, 7, 0), rest);
    RunCons(EMPTY_SYSTEM, CreateUpload(1, 7, 0), [BeginFinalize(1, 1, 7, 0)] + rest);
  }

  lemma SecondClaim(s: System) returns (t: System)
    requires s.clock == 120000 && s.finalizers == map[1 := Finalizer(7, 1, 120000, 0, Reading, None, false)]
    requires s.rows == map[1 := PendingRow(1, 7, 300000, 0).(status := Processing, processingLease := Some(120000))]
    ensures t == Begin(s, 2, 1, 7, 120000) && t.clock == 120000
    ensures t.finalizers == s.finalizers[2 := Finalizer(7, 1, 240000, 120000, Reading, None, false)]
    ensures t.rows == map[1 := PendingRow(1, 7, 300000, 0).(status := Processing, processingLease := Some(240000))]
  {
    t := Begin(s, 2, 1, 7, 120000);
  }

  lemma SecondClaimGivesUp() returns (s: System)
    ensures Run(EMPTY_SYSTEM, LATE_CLAIM_RUN) == Run(s, [BeginFinalize(3, 1, 7, 0)] + [])
    ensures s.clock == 120000 && s.finalizers.Keys == {1, 2} && 1 in s.rows
    ensures s.finalizers[1] == Finalizer(7, 1, 120000, 0, Reading, None, false)
    ensures s.rows[1] == PendingRow(1, 7, 300000, 0)
  {
    var last := [BeginFinalize(3, 1, 7, 0)] + [];
    var s2 := FirstClaim([Tick(120000)] + ([BeginFinalize(2, 1, 7, 120000)] + ([ReadUnavailable(2)] + last)));
    var s4 := SecondClaim(s2.(clock := 120000));
    s := GiveUp(s4, 2);
    GiveUpCons(s2, s4, last);
  }

  lemma GiveUpCons(s2: System, s4: System, last: seq<Event>)
    requires s2.clock <= 120000 && s4 == Begin(s2.(clock := 120000), 2, 1, 7, 120000) && InPhase(s4, 2, Reading)
    ensures Run(s2, [Tick(120000)] + ([BeginFinalize(2, 1, 7, 120000)] + ([ReadUnavailable(2)] + last)))
         == Run(GiveUp(s4, 2), last)
  {
    RunCons(s4, ReadUnavailable(2), last);
    RunCons(s2.(clock := 120000), BeginFinalize(2, 1, 7, 120000), [ReadUnavailable(2)] + last);
    RunCons(s2, Tick(120000), [BeginFinalize(2, 1, 7, 120000)] + ([ReadUnavailable(2)] + last));
  }

  /** The fence comes back, and two workers hold the row, under a lease that has run out. */
  lemma LateClaimSharesFence()
    ensures Holds(Run(EMPTY_SYSTEM, LATE_CLAIM_RUN), 1) && Holds(Run(EMPTY_SYSTEM, LATE_CLAIM_RUN), 3)
  {
    var s := SecondClaimGivesUp();
    RunCons(s, BeginFinalize(3, 1, 7, 0), []);
  }
}
