/** Uploads and account deletion as one system: requests come from accounts that were visible when they
    passed the access check, and uploads are anonymised only by a worker that holds the account's deletion
    lease after its deadline. Then account deletion never meets a live write. */
module UploadLifecycle {
  import opened Common
  import opened UploadTable
  import opened UploadPipeline
  import opened UploadFences
  import opened UploadOrphans
  import A = AccountDeletion
  import D = DeletionLease

  datatype Joint = Joint(uploads: System, accounts: D.System)

  const EMPTY_JOINT := Joint(EMPTY_SYSTEM, D.EMPTY_SYSTEM)

  datatype JointEvent =
    | TickBoth(to: Time)
    | UploadStep(step: Event)
    | AccountStep(move: D.Event)

  /** No request takes longer than `delay` from its first reading of the clock to its last statement. */
  predicate ShortEnough(delay: Time) { 0 <= delay && 3 * delay + FINALIZE_LEASE_MS <= A.GRACE_MS }

  /** The request passed the access check while the account was visible: the account is visible still, or has
      been hidden since, by a schedule that read its own clock at most a delay before it ran. */
  predicate Admitted(accounts: A.Table, user: UserId, now: Time, delay: Time) {
    user in accounts && (accounts[user].hiddenAt.Some? ==> now <= accounts[user].hiddenAt.value + 2 * delay)
  }

  /** beginAccountDeletion reads the clock, adds the grace period, and the repository reads it again. */
  predicate Prompt(clock: Time, deadline: Time, now: Time, delay: Time) {
    deadline - A.GRACE_MS <= now <= clock <= deadline - A.GRACE_MS + delay
  }

  /** The worker's anonymisation transaction goes through. */
  predicate Deletes(accounts: D.System, h: D.HolderId) {
    D.IsOpen(accounts, h) && accounts.holders[h].user in accounts.users
    && A.AnonymizeMatches(accounts.users[accounts.holders[h].user], accounts.holders[h].lease, accounts.holders[h].now)
  }

  function AccountMove(x: Joint, e: D.Event, delay: Time): Joint {
    match e
    case Tick(_) => x
    case ScheduleEvent(_, deadline, now) =>
      if Prompt(x.accounts.clock, deadline, now, delay) then x.(accounts := D.Step(x.accounts, e)) else x
    case AnonymizeEvent(h) =>
      if Deletes(x.accounts, h)
      then Joint(Anonymise(x.uploads, x.accounts.holders[h].user, x.accounts.holders[h].now), D.Step(x.accounts, e))
      else x
    case _ => x.(accounts := D.Step(x.accounts, e))
  }

  function UploadMove(x: Joint, e: Event, delay: Time): Joint {
    if e.Tick? || e.AnonymizeUser? || (e.BeginFinalize? && !Admitted(x.accounts.users, e.user, e.now, delay)) then x
    else x.(uploads := Step(x.uploads, e))
  }

  function JointStep(x: Joint, e: JointEvent, delay: Time): Joint {
    match e
    case TickBoth(to) => Joint(Step(x.uploads, Tick(to)), D.Step(x.accounts, D.Tick(to)))
    case UploadStep(step) => UploadMove(x, step, delay)
    case AccountStep(move) => AccountMove(x, move, delay)
  }

  function JointRun(x: Joint, es: seq<JointEvent>, delay: Time): Joint
    decreases |es|
  {
    if es == [] then x else JointRun(JointStep(x, es[0], delay), es[1..], delay)
  }

  // --------------------------------------------------------------- the bound

  /** A scheduled account was hidden early enough for every request that it still admits. */
  predicate HiddenLongEnough(a: A.Account, delay: Time) {
    a.scheduledAt.Some? ==>
      a.hiddenAt.Some? && a.hiddenAt.value + 2 * delay + FINALIZE_LEASE_MS <= a.scheduledAt.value
  }

  /** No lease of the owner outlives the deadline. */
  predicate EndsInTime(accounts: A.Table, f: Finalizer) {
    f.user in accounts
    && (accounts[f.user].scheduledAt.Some? ==> f.lease <= accounts[f.user].scheduledAt.value)
  }

  ghost predicate JointInv(x: Joint, delay: Time) {
    && Inv(x.uploads) && D.Inv(x.accounts) && x.uploads.clock == x.accounts.clock
    && (forall user :: user in x.accounts.users ==> HiddenLongEnough(x.accounts.users[user], delay))
    && (forall w :: w in x.uploads.finalizers ==> EndsInTime(x.accounts.users, x.uploads.finalizers[w]))
  }

  lemma FinalizerOrigin(s: System, e: Event, v: WorkerId)
    requires v in Step(s, e).finalizers
    ensures
      var f := Step(s, e).finalizers[v];
      || (v in s.finalizers && f.user == s.finalizers[v].user && f.lease == s.finalizers[v].lease)
      || (e.BeginFinalize? && f.user == e.user && f.lease == e.now + FINALIZE_LEASE_MS)
  {}

  lemma UploadMoveKeepsInv(x: Joint, e: Event, delay: Time)
    requires JointInv(x, delay) && ShortEnough(delay)
    ensures JointInv(UploadMove(x, e, delay), delay)
  {
    var y := UploadMove(x, e, delay);
    if y != x {
      StepKeepsInv(x.uploads, e);
      ClockStays(x.uploads, e);
      forall v | v in y.uploads.finalizers
        ensures EndsInTime(y.accounts.users, y.uploads.finalizers[v])
      {
        FinalizerOrigin(x.uploads, e, v);
        assert v in x.uploads.finalizers ==> EndsInTime(x.accounts.users, x.uploads.finalizers[v]);
        assert e.BeginFinalize? ==> HiddenLongEnough(x.accounts.users[e.user], delay);
      }
    }
  }

  lemma ClockStays(s: System, e: Event)
    requires !e.Tick?
    ensures Step(s, e).clock == s.clock
  {}

  /** How a step of the lease protocol changes one account's schedule. */
  lemma ScheduleOrigin(s: D.System, e: D.Event, user: UserId)
    requires user in D.Step(s, e).users && D.Step(s, e).users[user].scheduledAt.Some?
    ensures
      var a := D.Step(s, e).users[user];
      || (user in s.users && a.scheduledAt == s.users[user].scheduledAt && a.hiddenAt == s.users[user].hiddenAt)
      || (e.ScheduleEvent? && e.now <= s.clock && a.scheduledAt == Some(e.deadline) && a.hiddenAt == Some(e.now))
  {}

  lemma AccountsStay(s: D.System, e: D.Event, user: UserId)
    requires user in s.users
    ensures user in D.Step(s, e).users
  {}

  /** The accounts' part of a step, with uploads whose workers are as before. */
  lemma AccountStepKeepsBounds(x: Joint, uploads: System, e: D.Event, delay: Time)
    requires JointInv(x, delay) && ShortEnough(delay) && !e.Tick?
    requires e.ScheduleEvent? ==> Prompt(x.accounts.clock, e.deadline, e.now, delay)
    requires Inv(uploads) && uploads.clock == x.uploads.clock && uploads.finalizers == x.uploads.finalizers
    ensures JointInv(Joint(uploads, D.Step(x.accounts, e)), delay)
  {
    var accounts := D.Step(x.accounts, e);
    D.StepKeepsInv(x.accounts, e);
    forall user | user in accounts.users
      ensures HiddenLongEnough(accounts.users[user], delay)
    {
      if accounts.users[user].scheduledAt.Some? {
        ScheduleOrigin(x.accounts, e, user);
        assert user in x.accounts.users ==> HiddenLongEnough(x.accounts.users[user], delay);
      }
    }
    forall w | w in uploads.finalizers
      ensures EndsInTime(accounts.users, uploads.finalizers[w])
    {
      var f := uploads.finalizers[w];
      assert EndsInTime(x.accounts.users, f) && FinalizerOk(x.uploads, w);
      AccountsStay(x.accounts, e, f.user);
      if accounts.users[f.user].scheduledAt.Some? {
        ScheduleOrigin(x.accounts, e, f.user);
      }
    }
  }

  lemma AccountMoveKeepsInv(x: Joint, e: D.Event, delay: Time)
    requires JointInv(x, delay) && ShortEnough(delay)
    ensures JointInv(AccountMove(x, e, delay), delay)
  {
    if AccountMove(x, e, delay) != x {
      var uploads := AccountMove(x, e, delay).uploads;
      if e.AnonymizeEvent? {
        AnonymiseKeepsInv(x.uploads, x.accounts.holders[e.holder].user, x.accounts.holders[e.holder].now);
      }
      AccountStepKeepsBounds(x, uploads, e, delay);
    }
  }

  lemma JointStepKeepsInv(x: Joint, e: JointEvent, delay: Time)
    requires JointInv(x, delay) && ShortEnough(delay)
    ensures JointInv(JointStep(x, e, delay), delay)
  {
    match e
    case TickBoth(to) =>
      StepKeepsInv(x.uploads, Tick(to));
      D.StepKeepsInv(x.accounts, D.Tick(to));
    case UploadStep(step) => UploadMoveKeepsInv(x, step, delay);
    case AccountStep(move) => AccountMoveKeepsInv(x, move, delay);
  }

  /** When an account is deleted, every lease of its owner's finalizers has run out: no write is live, on any
      row. */
  lemma DeletionMeetsNoLiveWrite(x: Joint, h: D.HolderId, delay: Time, w: WorkerId)
    requires JointInv(x, delay) && Deletes(x.accounts, h)
    requires w in x.uploads.finalizers && x.uploads.finalizers[w].user == x.accounts.holders[h].user
    ensures x.uploads.finalizers[w].lease <= x.accounts.users[x.accounts.holders[h].user].scheduledAt.value
    ensures !LiveWrite(x.uploads, x.uploads.finalizers[w])
  {
    assert EndsInTime(x.accounts.users, x.uploads.finalizers[w]) && D.HolderOk(x.accounts, h);
  }

  lemma DeletionMeetsNoStrayWrite(x: Joint, h: D.HolderId, delay: Time)
    requires JointInv(x, delay) && Deletes(x.accounts, h)
    ensures NoStrayWrite(x.uploads, x.accounts.holders[h].user)
  {
    forall w | w in x.uploads.finalizers && x.uploads.finalizers[w].user == x.accounts.holders[h].user
      ensures !LiveWrite(x.uploads, x.uploads.finalizers[w])
    {
      DeletionMeetsNoLiveWrite(x, h, delay, w);
    }
  }

  // ------------------------------------------------------------- no orphans

  /** The only assumptions left: puts are timely, and no claim undercuts a live write. */
  ghost predicate JointAllowed(x: Joint, e: JointEvent) {
    e.UploadStep? ==>
      && Timely(x.uploads, e.step)
      && (e.step.BeginFinalize? ==>
            !Undercuts(x.uploads, e.step.worker, e.step.upload, e.step.user, e.step.now))
  }

  ghost predicate JointAllowedRun(x: Joint, es: seq<JointEvent>, delay: Time)
    decreases |es|
  {
    es != [] ==> JointAllowed(x, es[0]) && JointAllowedRun(JointStep(x, es[0], delay), es[1..], delay)
  }

  lemma JointStepKeepsTimed(x: Joint, e: JointEvent, delay: Time)
    requires JointInv(x, delay) && ShortEnough(delay) && TimedInv(x.uploads) && JointAllowed(x, e)
    ensures TimedInv(JointStep(x, e, delay).uploads)
  {
    match e
    case TickBoth(to) => StepKeepsTimed(x.uploads, Tick(to));
    case UploadStep(step) =>
      if UploadMove(x, step, delay) != x {
        StepKeepsTimed(x.uploads, step);
      }
    case AccountStep(move) =>
      if move.AnonymizeEvent? && Deletes(x.accounts, move.holder) {
        var holder := x.accounts.holders[move.holder];
        DeletionMeetsNoStrayWrite(x, move.holder, delay);
        StepKeepsTimed(x.uploads, AnonymizeUser(holder.user, holder.now));
      }
  }

  lemma {:induction false} JointRunKeeps(x: Joint, es: seq<JointEvent>, delay: Time)
    requires JointInv(x, delay) && ShortEnough(delay) && TimedInv(x.uploads) && JointAllowedRun(x, es, delay)
    ensures JointInv(JointRun(x, es, delay), delay) && TimedInv(JointRun(x, es, delay).uploads)
    decreases |es|
  {
    if es != [] {
      JointStepKeepsInv(x, es[0], delay);
      JointStepKeepsTimed(x, es[0], delay);
      JointRunKeeps(JointStep(x, es[0], delay), es[1..], delay);
    }
  }

  /** Over any run of uploads, cleanup, schedules, restores, claims and deletions, whatever the moments, with
      requests that take less than four days: timely puts and claims that undercut no live write leave no
      orphan. Account deletion needs no assumption. */
  lemma LifecycleLeavesNoOrphans(es: seq<JointEvent>, delay: Time)
    requires ShortEnough(delay) && JointAllowedRun(EMPTY_JOINT, es, delay)
    ensures NoOrphans(JointRun(EMPTY_JOINT, es, delay).uploads)
  {
    JointRunKeeps(EMPTY_JOINT, es, delay);
  }

  /** Four days are short enough. */
  lemma FourDaysAreShortEnough()
    ensures ShortEnough(4 * 24 * HOUR_MS)
  {}
}
