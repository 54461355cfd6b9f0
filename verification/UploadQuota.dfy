/** The two upload quotas, over every run of creates and of everything else that happens to uploads. */
module UploadQuota {
  import opened Common
  import opened UploadTable
  import opened UploadPipeline

  /** A create carries the moment its request read; requests may reach the database in any order. */
  datatype QuotaEvent = CreateAt(id: UploadId, user: UserId, now: Time) | Other(event: Event)

  function QuotaStep(s: System, e: QuotaEvent): System {
    match e
    case CreateAt(id, user, now) => s.(rows := CreatePending(s.rows, id, user, now + UPLOAD_URL_TTL_MS, now).1)
    case Other(event) => if event.CreateUpload? then s else Step(s, event)
  }

  function QuotaRun(s: System, es: seq<QuotaEvent>): System
    decreases |es|
  {
    if es == [] then s else QuotaRun(QuotaStep(s, es[0]), es[1..])
  }

  /** The user's creates in the hour that starts at `from`, both ends included. */
  function CreatedWithin(t: Table, user: UserId, from: Time): set<UploadId> {
    set id | id in t && t[id].userId == user && from <= t[id].createdAt <= from + UPLOAD_CREATE_WINDOW_MS
  }

  function OpenAt(t: Table, user: UserId, moment: Time): set<UploadId> {
    set id | id in t && t[id].userId == user && Open(t[id]) && t[id].expiresAt > moment
  }

  /** Every create of the user was requested at or before the moment. */
  ghost predicate AfterAllCreates(t: Table, user: UserId, moment: Time) {
    forall id :: id in t && t[id].userId == user ==> t[id].createdAt <= moment
  }

  ghost predicate RateWithinLimit(t: Table) {
    forall user, from :: |CreatedWithin(t, user, from)| <= MAX_UPLOAD_CREATES_PER_WINDOW
  }

  ghost predicate ActiveWithinLimit(t: Table) {
    forall user, moment :: AfterAllCreates(t, user, moment) ==>
      |OpenAt(t, user, moment)| <= MAX_ACTIVE_UPLOADS_PER_USER
  }

  ghost predicate ExpiryFixed(t: Table) {
    forall id :: id in t ==> t[id].expiresAt == t[id].createdAt + UPLOAD_URL_TTL_MS
  }

  ghost predicate QuotaInv(t: Table) { RateWithinLimit(t) && ActiveWithinLimit(t) && ExpiryFixed(t) }

  /** Rows keep their owner and times, none is added, and a closed row is not reopened. */
  ghost predicate Matures(t: Table, u: Table) {
    && t.Keys == u.Keys
    && (forall id :: id in t ==>
          && u[id].userId == t[id].userId && u[id].createdAt == t[id].createdAt
          && u[id].expiresAt == t[id].expiresAt && (Open(u[id]) ==> Open(t[id])))
  }

  lemma CleanupStepMatures(s: System, e: Event)
    requires e.ClaimCleanup? || e.ApplyCleanup?
    ensures Matures(s.rows, Step(s, e).rows)
  {}

  lemma BeginMatures(s: System, e: Event)
    requires e.BeginFinalize?
    ensures Matures(s.rows, Step(s, e).rows)
  {}

  lemma PrepareMatures(s: System, e: Event)
    requires e.PrepareFinal? || e.PublishVerified?
    ensures Matures(s.rows, Step(s, e).rows)
  {}

  lemma ReleaseMatures(s: System, e: Event)
    requires e.ReadRejected? || e.ReadUnavailable? || e.PutRejected? || e.FinishStaging?
    ensures Matures(s.rows, Step(s, e).rows)
  {}

  lemma StepMatures(s: System, e: Event)
    requires !e.CreateUpload?
    ensures Matures(s.rows, Step(s, e).rows)
  {
    if e.ClaimCleanup? || e.ApplyCleanup? {
      CleanupStepMatures(s, e);
    } else if e.BeginFinalize? {
      BeginMatures(s, e);
    } else if e.PrepareFinal? || e.PublishVerified? {
      PrepareMatures(s, e);
    } else if e.ReadRejected? || e.ReadUnavailable? || e.PutRejected? || e.FinishStaging? {
      ReleaseMatures(s, e);
    }
  }

  lemma MaturingKeepsQuota(t: Table, u: Table)
    requires QuotaInv(t) && Matures(t, u)
    ensures QuotaInv(u)
  {
    assert forall id :: id in u <==> id in t;
    forall user, from
      ensures |CreatedWithin(u, user, from)| <= MAX_UPLOAD_CREATES_PER_WINDOW
    {
      forall id
        ensures id in CreatedWithin(u, user, from) <==> id in CreatedWithin(t, user, from)
      {
        assert id in u <==> id in t;
      }
      assert CreatedWithin(u, user, from)
          == CreatedWithin(t, user, from);
    }
    forall user, moment | AfterAllCreates(u, user, moment)
      ensures |OpenAt(u, user, moment)| <= MAX_ACTIVE_UPLOADS_PER_USER
    {
      assert forall id :: id in t && t[id].userId == user ==> u[id].createdAt <= moment;
      assert AfterAllCreates(t, user, moment);
      forall id | id in OpenAt(u, user, moment)
        ensures id in OpenAt(t, user, moment)
      {
        assert id in t;
      }
      SubsetSize(OpenAt(u, user, moment), OpenAt(t, user, moment));
    }
  }

  lemma CreateKeepsRate(t: Table, id: UploadId, user: UserId, now: Time, owner: UserId, from: Time)
    requires RateWithinLimit(t)
    ensures
      var u := CreatePending(t, id, user, now + UPLOAD_URL_TTL_MS, now).1;
      |CreatedWithin(u, owner, from)| <= MAX_UPLOAD_CREATES_PER_WINDOW
  {
    var u := CreatePending(t, id, user, now + UPLOAD_URL_TTL_MS, now).1;
    var before, after := CreatedWithin(t, owner, from), CreatedWithin(u, owner, from);
    if id in after && id !in t {
      assert after == before + {id};
      SubsetSize(before, RecentUploads(t, user, now - UPLOAD_CREATE_WINDOW_MS));
    } else {
      assert after == before;
    }
  }

  lemma CreateKeepsActive(t: Table, id: UploadId, user: UserId, now: Time, owner: UserId, moment: Time)
    requires QuotaInv(t)
    requires AfterAllCreates(CreatePending(t, id, user, now + UPLOAD_URL_TTL_MS, now).1, owner, moment)
    ensures
      var u := CreatePending(t, id, user, now + UPLOAD_URL_TTL_MS, now).1;
      |OpenAt(u, owner, moment)| <= MAX_ACTIVE_UPLOADS_PER_USER
  {
    var u := CreatePending(t, id, user, now + UPLOAD_URL_TTL_MS, now).1;
    var before, after := OpenAt(t, owner, moment), OpenAt(u, owner, moment);
    if id in after && id !in t {
      assert after == before + {id};
      assert u[id].createdAt == now;
      forall i | i in before
        ensures i in ActiveUploads(t, user, now - UPLOAD_CREATE_WINDOW_MS, now)
      {
        assert t[i].expiresAt == t[i].createdAt + UPLOAD_URL_TTL_MS;
      }
      SubsetSize(before, ActiveUploads(t, user, now - UPLOAD_CREATE_WINDOW_MS, now));
    } else {
      assert after == before;
      assert forall i :: i in t ==> i in u && u[i] == t[i];
      assert AfterAllCreates(t, owner, moment);
    }
  }

  lemma QuotaStepKeeps(s: System, e: QuotaEvent)
    requires QuotaInv(s.rows)
    ensures QuotaInv(QuotaStep(s, e).rows)
  {
    match e
    case CreateAt(id, user, now) =>
      var u := QuotaStep(s, e).rows;
      forall owner, from
        ensures |CreatedWithin(u, owner, from)| <= MAX_UPLOAD_CREATES_PER_WINDOW
      {
        CreateKeepsRate(s.rows, id, user, now, owner, from);
      }
      forall owner, moment | AfterAllCreates(u, owner, moment)
        ensures |OpenAt(u, owner, moment)| <= MAX_ACTIVE_UPLOADS_PER_USER
      {
        CreateKeepsActive(s.rows, id, user, now, owner, moment);
      }
    case Other(event) =>
      if !event.CreateUpload? {
        StepMatures(s, event);
        MaturingKeepsQuota(s.rows, Step(s, event).rows);
      }
  }

  /** Whatever the order of the creates' moments and whatever else happens to the uploads: no hour,
      wherever it starts, holds more than twenty creates of a user, and from the latest create on a user
      never has more than five unexpired open uploads. */
  lemma {:induction false} QuotasHold(s: System, es: seq<QuotaEvent>)
    requires QuotaInv(s.rows)
    ensures QuotaInv(QuotaRun(s, es).rows)
    decreases |es|
  {
    if es != [] {
      QuotaStepKeeps(s, es[0]);
      QuotasHold(QuotaStep(s, es[0]), es[1..]);
    }
  }
}
