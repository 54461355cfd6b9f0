/** The lease protocol by which maintenance workers anonymise accounts whose grace period has passed. Every
    call compares with the moment that its caller read, however late the statement itself runs. */
module DeletionLease {
  import opened Common
  import opened AccountDeletion

  type HolderId = int

  /** A worker that claimed an account; it uses the claim's moment throughout. */
  datatype Holder = Holder(user: UserId, lease: Time, now: Time, open: bool)

  datatype System = System(clock: Time, users: Table, holders: map<HolderId, Holder>)

  const EMPTY_SYSTEM := System(0, map[], map[])

  datatype Event =
    | Tick(to: Time)
    | SignUp(user: UserId)
    | ScheduleEvent(user: UserId, deadline: Time, now: Time)
    | RestoreEvent(user: UserId, now: Time)
    | ClaimDue(holder: HolderId, user: UserId, now: Time)
    | AnonymizeEvent(holder: HolderId)
    | ReleaseEvent(holder: HolderId)
    | HolderCrashes(holder: HolderId)

  predicate IsOpen(s: System, h: HolderId) { h in s.holders && s.holders[h].open }

  function Close(s: System, h: HolderId): System
    requires h in s.holders
  {
    s.(holders := s.holders[h := s.holders[h].(open := false)])
  }

  function ClaimOne(s: System, h: HolderId, user: UserId, now: Time): System {
    if h in s.holders || user !in s.users || now > s.clock || !DeletionDue(s.users[user], now) then s
    else
      s.(users := s.users[user := ClaimedRow(s.users[user], now + DELETION_LEASE_MS)],
         holders := s.holders[h := Holder(user, now + DELETION_LEASE_MS, now, true)])
  }

  function AnonymizeStep(s: System, h: HolderId): System
    requires h in s.holders
  {
    var (done, users) := Anonymize(s.users, s.holders[h].user, s.holders[h].lease, s.holders[h].now);
    if done then Close(s.(users := users), h) else s
  }

  function ReleaseStep(s: System, h: HolderId): System
    requires h in s.holders
  {
    Close(s.(users := Released(s.users, s.holders[h].user, s.holders[h].lease)), h)
  }

  function Step(s: System, e: Event): System {
    match e
    case Tick(to) => if to >= s.clock then s.(clock := to) else s
    case SignUp(user) =>
      if user in s.users then s else s.(users := s.users[user := Account(None, None, None, 0, None)])
    case ScheduleEvent(user, deadline, now) =>
      if now > s.clock then s else s.(users := Schedule(s.users, user, deadline, now).1)
    case RestoreEvent(user, now) => if now > s.clock then s else s.(users := Restore(s.users, user, now).1)
    case ClaimDue(h, user, now) => ClaimOne(s, h, user, now)
    case AnonymizeEvent(h) => if IsOpen(s, h) then AnonymizeStep(s, h) else s
    case ReleaseEvent(h) => if IsOpen(s, h) then ReleaseStep(s, h) else s
    case HolderCrashes(h) => if h in s.holders then Close(s, h) else s
  }

  function Run(s: System, es: seq<Event>): System
    decreases |es|
  {
    if es == [] then s else Run(Step(s, es[0]), es[1..])
  }

  lemma RunCons(s: System, e: Event, rest: seq<Event>)
    ensures Run(s, [e] + rest) == Run(Step(s, e), rest)
  {
    assert ([e] + rest)[1..] == rest;
  }

  /** The worker's statements under its lease would match the account. */
  predicate Holds(s: System, h: HolderId) {
    && IsOpen(s, h) && s.holders[h].user in s.users
    && ReleaseMatches(s.users[s.holders[h].user], s.holders[h].lease)
  }

  predicate HolderOk(s: System, h: HolderId)
    requires h in s.holders
  {
    var holder := s.holders[h];
    && holder.user in s.users
    && holder.now <= s.clock
    && holder.lease == holder.now + DELETION_LEASE_MS
  }

  predicate AccountOk(a: Account) {
    && (a.scheduledAt.Some? || a.deletedAt.Some? ==> a.hiddenAt.Some?)
    && (a.lease.Some? ==> a.scheduledAt.Some?)
  }

  ghost predicate Inv(s: System) {
    && (forall user :: user in s.users ==> AccountOk(s.users[user]))
    && (forall h :: h in s.holders ==> HolderOk(s, h))
  }

  lemma StepKeepsInv(s: System, e: Event)
    requires Inv(s)
    ensures Inv(Step(s, e))
  {}

  lemma {:induction false} RunKeepsInv(s: System, es: seq<Event>)
    requires Inv(s)
    ensures Inv(Run(s, es))
    decreases |es|
  {
    if es != [] {
      StepKeepsInv(s, es[0]);
      RunKeepsInv(Step(s, es[0]), es[1..]);
    }
  }

  // ------------------------------------------------------------------ deletion

  lemma DeletedStep(s: System, e: Event, user: UserId)
    requires user in s.users && s.users[user].deletedAt.Some?
    ensures user in Step(s, e).users && Step(s, e).users[user] == s.users[user]
  {}

  /** A deleted account never changes again: it is anonymised at most once. */
  lemma {:induction false} DeletedIsFrozen(s: System, es: seq<Event>, user: UserId)
    requires user in s.users && s.users[user].deletedAt.Some?
    ensures user in Run(s, es).users && Run(s, es).users[user] == s.users[user]
    decreases |es|
  {
    if es != [] {
      DeletedStep(s, es[0], user);
      DeletedIsFrozen(Step(s, es[0]), es[1..], user);
    }
  }

  /** Only a worker holding the account's lease deletes it, and never before its deadline. */
  lemma DeletionFollowsDeadline(s: System, e: Event, user: UserId)
    requires Inv(s) && user in s.users && s.users[user].deletedAt.None?
    requires Step(s, e).users[user].deletedAt.Some?
    ensures e.AnonymizeEvent? && Holds(s, e.holder) && s.holders[e.holder].user == user
    ensures AtOrBefore(s.users[user].scheduledAt, s.clock)
    ensures Step(s, e).users[user].deletedAt.value >= s.users[user].scheduledAt.value
  {
    assert e.AnonymizeEvent? && e.holder in s.holders ==> HolderOk(s, e.holder);
  }

  // ------------------------------------------------------------------- restore

  /** The restore compared with a moment before the deadline. */
  predicate Lifts(s: System, e: Event, user: UserId, deadline: Time) {
    e.RestoreEvent? && e.user == user && e.now <= s.clock && e.now < deadline
  }

  /** Somewhere along the run the account, not deleted, has lost its deadline. */
  ghost predicate EverLifted(s: System, es: seq<Event>, user: UserId, deadline: Time)
    decreases |es|
  {
    || (user in s.users && s.users[user].deletedAt.None? && s.users[user].scheduledAt != Some(deadline))
    || (es != [] && EverLifted(Step(s, es[0]), es[1..], user, deadline))
  }

  /** Somewhere along the run, before the account is deleted, such a restore takes place. */
  ghost predicate EarlyRestore(s: System, es: seq<Event>, user: UserId, deadline: Time)
    decreases |es|
  {
    es != [] && ((user in s.users && s.users[user].deletedAt.None? && Lifts(s, es[0], user, deadline))
                 || EarlyRestore(Step(s, es[0]), es[1..], user, deadline))
  }

  lemma {:induction false} DeletedNeverLifts(s: System, es: seq<Event>, user: UserId, deadline: Time)
    requires user in s.users && s.users[user].deletedAt.Some?
    ensures !EverLifted(s, es, user, deadline) && !EarlyRestore(s, es, user, deadline)
    decreases |es|
  {
    if es != [] {
      DeletedStep(s, es[0], user);
      DeletedNeverLifts(Step(s, es[0]), es[1..], user, deadline);
    }
  }

  lemma ScheduledStep(s: System, e: Event, user: UserId, deadline: Time)
    requires user in s.users && s.users[user].scheduledAt == Some(deadline) && s.users[user].deletedAt.None?
    ensures
      var t := Step(s, e);
      && user in t.users
      && (Lifts(s, e, user, deadline) <==> t.users[user].deletedAt.None? && t.users[user].scheduledAt != Some(deadline))
  {}

  /** An account whose deletion is scheduled, claimed by a worker or not, is restored in a run if and only if
      a restore takes place, before the deletion, that compared with a moment before the deadline. */
  lemma {:induction false} RestoredIff(s: System, es: seq<Event>, user: UserId, deadline: Time)
    requires user in s.users && s.users[user].scheduledAt == Some(deadline) && s.users[user].deletedAt.None?
    ensures EverLifted(s, es, user, deadline) <==> EarlyRestore(s, es, user, deadline)
    decreases |es|
  {
    if es != [] {
      var t := Step(s, es[0]);
      ScheduledStep(s, es[0], user, deadline);
      if t.users[user].deletedAt.Some? {
        DeletedNeverLifts(t, es[1..], user, deadline);
      } else if t.users[user].scheduledAt == Some(deadline) {
        RestoredIff(t, es[1..], user, deadline);
      }
    }
  }

  /** So a claimed account is never restored by restores that compared with a moment at or after the claim's. */
  lemma {:induction false} ClaimedIsNotRestoredLater(s: System, es: seq<Event>, h: HolderId)
    requires h in s.holders && s.holders[h].user in s.users && AtOrBefore(s.users[s.holders[h].user].scheduledAt, s.holders[h].now)
    requires forall i :: 0 <= i < |es| && es[i].RestoreEvent? && es[i].user == s.holders[h].user ==>
      es[i].now >= s.holders[h].now
    ensures
      var user, t := s.holders[h].user, Run(s, es);
      user in t.users && (t.users[user].deletedAt.Some? || t.users[user].scheduledAt == s.users[user].scheduledAt)
    decreases |es|
  {
    var user := s.holders[h].user;
    if s.users[user].deletedAt.Some? {
      DeletedIsFrozen(s, es, user);
    } else if es != [] {
      ScheduledStep(s, es[0], user, s.users[user].scheduledAt.value);
      var t := Step(s, es[0]);
      assert h in t.holders && t.holders[h].user == user && t.holders[h].now == s.holders[h].now;
      if t.users[user].deletedAt.Some? {
        DeletedIsFrozen(t, es[1..], user);
      } else {
        ClaimedIsNotRestoredLater(t, es[1..], h);
      }
    }
  }

  /** A restore that compared with the millisecond before the deadline runs after a worker's claim. */
  const LATE_RESTORE_RUN: seq<Event> :=
    [SignUp(7)] + ([ScheduleEvent(7, GRACE_MS, 0)] + ([Tick(GRACE_MS)] + ([ClaimDue(1, 7, GRACE_MS)]
    + ([RestoreEvent(7, GRACE_MS - 1)] + []))))

  /** It lifts the deletion of the claimed account, and the worker has lost it. */
  lemma LateRestoreLiftsClaimed()
    ensures
      var s := Run(EMPTY_SYSTEM, LATE_RESTORE_RUN);
      && s.users == map[7 := Account(None, None, None, 0, None)]
      && IsOpen(s, 1) && s.holders[1].user == 7 && !Holds(s, 1)
  {
    var restore := [RestoreEvent(7, GRACE_MS - 1)] + [];
    var s3 := GracePassed([ClaimDue(1, 7, GRACE_MS)] + restore);
    var s4 := ClaimOne(s3, 1, 7, GRACE_MS);
    RunCons(s4, RestoreEvent(7, GRACE_MS - 1), []);
    RunCons(s3, ClaimDue(1, 7, GRACE_MS), restore);
  }

  /** Account 7 schedules its deletion at 0, and the grace period passes. */
  lemma GracePassed(rest: seq<Event>) returns (s: System)
    ensures Run(EMPTY_SYSTEM, [SignUp(7)] + ([ScheduleEvent(7, GRACE_MS, 0)] + ([Tick(GRACE_MS)] + rest))) == Run(s, rest)
    ensures s == System(GRACE_MS, map[7 := Account(Some(0), Some(GRACE_MS), None, 0, None)], map[])
  {
    var s1 := Step(EMPTY_SYSTEM, SignUp(7));
    var s2 := Step(s1, ScheduleEvent(7, GRACE_MS, 0));
    s := s2.(clock := GRACE_MS);
    RunCons(s2, Tick(GRACE_MS), rest);
    RunCons(s1, ScheduleEvent(7, GRACE_MS, 0), [Tick(GRACE_MS)] + rest);
    RunCons(EMPTY_SYSTEM, SignUp(7), [ScheduleEvent(7, GRACE_MS, 0)] + ([Tick(GRACE_MS)] + rest));
  }

  /** Scheduling again keeps the first deadline; only a restore or the deletion itself lifts it. */
  lemma {:induction false} FirstDeadlineStands(s: System, es: seq<Event>, user: UserId)
    requires user in s.users && s.users[user].scheduledAt.Some? && s.users[user].deletedAt.None?
    requires forall i :: 0 <= i < |es| ==> !(es[i].RestoreEvent? && es[i].user == user)
    ensures
      var t := Run(s, es);
      && user in t.users
      && (t.users[user].deletedAt.Some? || t.users[user].scheduledAt == s.users[user].scheduledAt)
    ensures
      var t := Run(s, es);
      t.users[user].deletedAt.None? ==>
        forall deadline: Time, now: Time :: Schedule(t.users, user, deadline, now) == (s.users[user].scheduledAt, t.users)
    decreases |es|
  {
    if es == [] {
      assert s.users[user := s.users[user]] == s.users;
    } else {
      var s1 := Step(s, es[0]);
      ScheduledStep(s, es[0], user, s.users[user].scheduledAt.value);
      if s1.users[user].deletedAt.Some? {
        DeletedIsFrozen(s1, es[1..], user);
      } else {
        FirstDeadlineStands(s1, es[1..], user);
      }
    }
  }

  // ---------------------------------------------------------------- lost leases

  /** The step claims the worker's account at the very moment of the worker's own claim, so that the two
      leases are equal. */
  predicate Regains(s: System, e: Event, h: HolderId)
    requires h in s.holders
  {
    && s.holders[h].open && e.ClaimDue? && e.user == s.holders[h].user && e.now == s.holders[h].now
    && ClaimOne(s, e.holder, e.user, e.now) != s
  }

  /** Two workers hold one account only under claims made at the same moment. */
  lemma HoldersShareTheMoment(s: System, g: HolderId, h: HolderId)
    requires Inv(s) && Holds(s, g) && Holds(s, h) && s.holders[g].user == s.holders[h].user
    ensures s.holders[g].now == s.holders[h].now
  {
    assert HolderOk(s, g) && HolderOk(s, h);
  }

  /** A worker that lost the account's lease gets it back in a step if and only if that step claims the
      account at the moment of the worker's own claim. */
  lemma LeaseRegainedIff(s: System, e: Event, h: HolderId)
    requires Inv(s) && h in s.holders && !Holds(s, h)
    ensures h in Step(s, e).holders && (Holds(Step(s, e), h) <==> Regains(s, e, h))
  {
    assert HolderOk(s, h);
  }

  lemma HoldersStay(s: System, e: Event, h: HolderId)
    requires h in s.holders
    ensures h in Step(s, e).holders
    ensures Step(s, e).holders[h] == s.holders[h] || Step(s, e).holders[h] == s.holders[h].(open := false)
  {}

  /** Without such a claim it can neither anonymise nor release, ever again. */
  lemma {:induction false} LostLeaseStaysLost(s: System, es: seq<Event>, h: HolderId)
    requires Inv(s) && h in s.holders && !Holds(s, h)
    requires forall i :: 0 <= i < |es| && es[i].ClaimDue? && es[i].user == s.holders[h].user ==>
      es[i].now != s.holders[h].now
    ensures
      var t := Run(s, es);
      && h in t.holders && !Holds(t, h)
      && Step(t, AnonymizeEvent(h)).users == t.users && Step(t, ReleaseEvent(h)).users == t.users
    decreases |es|
  {
    if es != [] {
      StepKeepsInv(s, es[0]);
      LeaseRegainedIff(s, es[0], h);
      HoldersStay(s, es[0], h);
      LostLeaseStaysLost(Step(s, es[0]), es[1..], h);
    } else {
      assert HolderOk(s, h);
    }
  }

  const LEASE_END: Time := GRACE_MS + DELETION_LEASE_MS

  /** Worker 1 claims at the deadline and stalls; worker 2 claims when that lease has run out and releases;
      worker 3 comes late with the moment of the deadline. */
  const LATE_CLAIM_RUN: seq<Event> :=
    [SignUp(7)] + ([ScheduleEvent(7, GRACE_MS, 0)] + ([Tick(GRACE_MS)] + ([ClaimDue(1, 7, GRACE_MS)]
    + ([Tick(LEASE_END)] + ([ClaimDue(2, 7, LEASE_END)] + ([ReleaseEvent(2)] + ([ClaimDue(3, 7, GRACE_MS)] + [])))))))

  lemma SecondClaimReleased() returns (s: System)
    ensures Run(EMPTY_SYSTEM, LATE_CLAIM_RUN) == Run(s, [ClaimDue(3, 7, GRACE_MS)] + [])
    ensures s.clock == LEASE_END && s.holders.Keys == {1, 2} && s.holders[1] == Holder(7, LEASE_END, GRACE_MS, true)
    ensures 7 in s.users && s.users[7].scheduledAt == Some(GRACE_MS) && s.users[7].lease.None? && s.users[7].deletedAt.None?
  {
    var last := [ClaimDue(3, 7, GRACE_MS)] + [];
    var second := [ClaimDue(2, 7, LEASE_END)] + ([ReleaseEvent(2)] + last);
    var s2 := GracePassed([ClaimDue(1, 7, GRACE_MS)] + ([Tick(LEASE_END)] + second));
    var s3 := ClaimOne(s2, 1, 7, GRACE_MS);
    var s4 := s3.(clock := LEASE_END);
    var s5 := ClaimOne(s4, 2, 7, LEASE_END);
    s := ReleaseStep(s5, 2);
    RunCons(s5, ReleaseEvent(2), last);
    RunCons(s4, ClaimDue(2, 7, LEASE_END), [ReleaseEvent(2)] + last);
    RunCons(s3, Tick(LEASE_END), second);
    RunCons(s2, ClaimDue(1, 7, GRACE_MS), [Tick(LEASE_END)] + second);
  }

  /** The first worker has its lease back, and two workers hold the account. */
  lemma LateClaimSharesLease()
    ensures Holds(Run(EMPTY_SYSTEM, LATE_CLAIM_RUN), 1) && Holds(Run(EMPTY_SYSTEM, LATE_CLAIM_RUN), 3)
  {
    var s := SecondClaimReleased();
    RunCons(s, ClaimDue(3, 7, GRACE_MS), []);
  }
}
