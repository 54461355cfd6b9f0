/** The deletion columns of the users table, the repository statements over them, and the maintenance batch
    that anonymises accounts whose grace period has passed. */
module AccountDeletion {
  import opened Common
  import opened ClaimBatch

  type UserId = int

  /** beginAccountDeletion schedules fourteen days ahead. */
  const GRACE_MS: int := 14 * 24 * HOUR_MS
  const DELETION_LEASE_MS: int := 5 * MINUTE_MS
  const MAX_DELETION_BATCH := 100

  datatype Account = Account(
    hiddenAt: Option<Time>, scheduledAt: Option<Time>, lease: Option<Time>, attempts: nat, deletedAt: Option<Time>)

  type Table = map<UserId, Account>

  // ---------------------------------------------------------------- one row

  function ScheduledRow(a: Account, deadline: Time, now: Time): Account {
    if a.deletedAt.None? && a.scheduledAt.None? then a.(hiddenAt := Some(now), scheduledAt := Some(deadline)) else a
  }

  predicate Restorable(a: Account, now: Time) {
    a.scheduledAt.Some? && a.scheduledAt.value > now && a.deletedAt.None?
  }

  function RestoredRow(a: Account): Account {
    a.(hiddenAt := None, scheduledAt := None, lease := None, attempts := 0)
  }

  predicate DeletionDue(a: Account, now: Time) {
    AtOrBefore(a.scheduledAt, now) && a.deletedAt.None? && (a.lease.None? || a.lease.value <= now)
  }

  function ClaimedRow(a: Account, lease: Time): Account {
    a.(lease := Some(lease), attempts := a.attempts + 1)
  }

  predicate ReleaseMatches(a: Account, lease: Time) { a.lease == Some(lease) && a.deletedAt.None? }

  predicate AnonymizeMatches(a: Account, lease: Time, now: Time) {
    && a.deletedAt.None? && AtOrBefore(a.scheduledAt, now)
    && a.lease == Some(lease) && lease > now
  }

  function AnonymizedRow(a: Account, now: Time): Account {
    a.(scheduledAt := None, lease := None, deletedAt := Some(now))
  }

  // -------------------------------------------------------- the whole table

  function Schedule(t: Table, user: UserId, deadline: Time, now: Time): (Option<Time>, Table) {
    if user !in t || t[user].deletedAt.Some? then (None, t)
    else var row := ScheduledRow(t[user], deadline, now); (row.scheduledAt, t[user := row])
  }

  function Restore(t: Table, user: UserId, now: Time): (bool, Table) {
    if user in t && Restorable(t[user], now) then (true, t[user := RestoredRow(t[user])]) else (false, t)
  }

  function DueAccounts(t: Table, now: Time): set<UserId> {
    set user | user in t && DeletionDue(t[user], now)
  }

  function Leased(t: Table, selected: set<UserId>, lease: Time): Table {
    map user | user in t :: if user in selected then ClaimedRow(t[user], lease) else t[user]
  }

  predicate DueBefore(t: Table, a: UserId, b: UserId) {
    && a in t && b in t && t[a].scheduledAt.Some? && t[b].scheduledAt.Some?
    && (t[a].scheduledAt.value < t[b].scheduledAt.value
        || (t[a].scheduledAt == t[b].scheduledAt && a < b))
  }

  function DueOrder(t: Table): (UserId, UserId) -> bool {
    (a: UserId, b: UserId) => DueBefore(t, a, b)
  }

  function Released(t: Table, user: UserId, lease: Time): Table {
    if user in t && ReleaseMatches(t[user], lease) then t[user := t[user].(lease := None)] else t
  }

  function Anonymize(t: Table, user: UserId, lease: Time, now: Time): (bool, Table) {
    if user in t && AnonymizeMatches(t[user], lease, now)
    then (true, t[user := AnonymizedRow(t[user], now)])
    else (false, t)
  }

  // ------------------------------------------------- what the statements owe their callers

  /** An account that is there and not deleted has a deadline afterwards, the first one if it had one already;
      only a first schedule changes anything, and hides the account. */
  predicate ScheduleAnswer(
    t: Table, after: Table, user: UserId, deadline: Time, now: Time, scheduled: Option<Time>)
  {
    && (scheduled.None? <==> user !in t || t[user].deletedAt.Some?)
    && (scheduled.None? || t[user].scheduledAt.Some? ==> after == t)
    && (scheduled.Some? ==>
          && scheduled == (if t[user].scheduledAt.Some? then t[user].scheduledAt else Some(deadline))
          && (t[user].scheduledAt.None? ==>
                after == t[user := t[user].(hiddenAt := Some(now), scheduledAt := Some(deadline))]))
  }

  lemma ScheduleAnswers(t: Table, user: UserId, deadline: Time, now: Time)
    ensures
      var (scheduled, after) := Schedule(t, user, deadline, now);
      ScheduleAnswer(t, after, user, deadline, now, scheduled)
  {
    if user in t {
      assert t[user := t[user]] == t;
    }
  }

  /** A restore succeeds if and only if the deadline lies ahead and the account is not deleted; it then shows
      the account again and forgets the schedule, the lease and the attempts. */
  predicate RestoreAnswer(t: Table, after: Table, user: UserId, now: Time, restored: bool) {
    && (restored <==>
          user in t && t[user].deletedAt.None? && t[user].scheduledAt.Some? && now < t[user].scheduledAt.value)
    && after == if restored then t[user := Account(None, None, None, 0, t[user].deletedAt)] else t
  }

  /** The deadline has passed, and no running lease keeps others away. */
  predicate Waiting(a: Account, now: Time) {
    && a.deletedAt.None? && a.scheduledAt.Some? && a.scheduledAt.value <= now
    && (a.lease.Some? ==> a.lease.value <= now)
  }

  /** A claim takes waiting accounts, leaves one waiting only if it took as many as it may, and then only later
      deadlines, ids deciding ties. */
  ghost predicate ClaimAnswer(t: Table, jobs: set<UserId>, now: Time, limit: nat) {
    && |jobs| <= limit
    && (forall user :: user in jobs ==> user in t && Waiting(t[user], now))
    && (forall user :: user in t && user !in jobs && Waiting(t[user], now) ==> LeftOut(t, jobs, user, limit))
  }

  ghost predicate LeftOut(t: Table, jobs: set<UserId>, user: UserId, limit: nat)
    requires user in t && t[user].scheduledAt.Some?
  {
    && |jobs| == limit
    && forall other :: other in jobs ==>
         other in t && t[other].scheduledAt.Some?
         && (t[other].scheduledAt.value < t[user].scheduledAt.value
             || (t[other].scheduledAt == t[user].scheduledAt && other < user))
  }

  lemma ClaimAnswers(t: Table, jobs: set<UserId>, now: Time, limit: nat)
    requires IsFirstOf(jobs, DueAccounts(t, now), DueOrder(t), limit)
    ensures ClaimAnswer(t, jobs, now, limit)
  {
    forall user | user in t && user !in jobs && Waiting(t[user], now)
      ensures LeftOut(t, jobs, user, limit)
    {
      assert user in DueAccounts(t, now) - jobs;
      assert forall other :: other in jobs ==> DueOrder(t)(other, user);
    }
  }

  /** Deletion takes the current lease, still running, and a passed deadline. */
  predicate AnonymizeAnswer(t: Table, after: Table, user: UserId, lease: Time, now: Time, done: bool) {
    && (done <==>
          && user in t && t[user].deletedAt.None? && t[user].lease == Some(lease) && now < lease
          && t[user].scheduledAt.Some? && t[user].scheduledAt.value <= now)
    && after == if done then t[user := t[user].(scheduledAt := None, lease := None, deletedAt := Some(now))] else t
  }

  /** A batch deletes each account that it claimed, or hands it back with the attempt counted when its
      transaction fails; no other account changes. */
  ghost predicate BatchAnswer(t: Table, after: Table, jobs: set<UserId>, failing: set<UserId>, now: Time) {
    && after.Keys == t.Keys
    && (forall user :: user in t && user !in jobs ==> after[user] == t[user])
    && (forall user :: user in t && user in jobs ==>
          var a := t[user].(lease := None, attempts := t[user].attempts + 1);
          after[user] == if user in failing then a else a.(scheduledAt := None, deletedAt := Some(now)))
  }

  // ------------------------------------------------------------ the repository

  datatype BatchSummary = BatchSummary(claimed: nat, succeeded: nat, retryScheduled: nat, hasMore: bool)

  class UserRepository {
    var users: Table

    constructor (users: Table)
      ensures this.users == users
    {
      this.users := users;
    }

    /** None stands for ACCOUNT_DELETION_SCHEDULE_FAILED. */
    method ScheduleDeletion(user: UserId, deadline: Time, now: Time) returns (scheduled: Option<Time>)
      modifies this
      ensures (scheduled, users) == Schedule(old(users), user, deadline, now)
      ensures ScheduleAnswer(old(users), users, user, deadline, now, scheduled)
    {
      ScheduleAnswers(users, user, deadline, now);
      if user !in users || users[user].deletedAt.Some? {
        return None;
      }
      if users[user].scheduledAt.None? {
        users := users[user := users[user].(hiddenAt := Some(now), scheduledAt := Some(deadline))];
      } else {
        assert users[user := users[user]] == users;
      }
      return users[user].scheduledAt;
    }

    method RestoreScheduledDeletion(user: UserId, now: Time) returns (restored: bool)
      modifies this
      ensures (restored, users) == Restore(old(users), user, now)
      ensures RestoreAnswer(old(users), users, user, now, restored)
    {
      restored := user in users && Restorable(users[user], now);
      if restored {
        users := users[user := RestoredRow(users[user])];
      }
    }

    method ClaimDueDeletionBatch(now: Time, lease: Time, limit: nat) returns (jobs: set<UserId>, hasMore: bool)
      modifies this
      ensures IsFirstOf(jobs, DueAccounts(old(users), now), DueOrder(old(users)), limit)
      ensures users == Leased(old(users), jobs, lease)
      ensures hasMore <==> jobs != {} && DueAccounts(users, now) != {}
      ensures ClaimAnswer(old(users), jobs, now, limit)
    {
      jobs := SelectFirst(DueAccounts(users, now), DueOrder(users), limit);
      ClaimAnswers(users, jobs, now, limit);
      if jobs == {} {
        assert users == Leased(users, jobs, lease);
        hasMore := false;
        return;
      }
      users := Leased(users, jobs, lease);
      hasMore := DueAccounts(users, now) != {};
    }

    method ReleaseDeletionLease(user: UserId, lease: Time)
      modifies this
      ensures users == Released(old(users), user, lease)
      ensures users == if user in old(users) && old(users)[user].lease == Some(lease) && old(users)[user].deletedAt.None?
                       then old(users)[user := old(users)[user].(lease := None)] else old(users)
    {
      if user in users && ReleaseMatches(users[user], lease) {
        users := users[user := users[user].(lease := None)];
      }
    }

    /** False stands for ACCOUNT_DELETION_CLAIM_REQUIRED. */
    method AnonymizeDeletedAccount(user: UserId, lease: Time, now: Time) returns (done: bool)
      modifies this
      ensures (done, users) == Anonymize(old(users), user, lease, now)
      ensures AnonymizeAnswer(old(users), users, user, lease, now, done)
    {
      done := user in users && AnonymizeMatches(users[user], lease, now);
      if done {
        users := users[user := AnonymizedRow(users[user], now)];
      }
    }

    /** One claimed job: anonymise, and release the lease again when that fails. */
    method ProcessJob(user: UserId, lease: Time, now: Time, failing: bool, ghost before: Account)
      returns (done: bool)
      requires user in users && users[user] == ClaimedRow(before, lease)
      requires DeletionDue(before, now) && lease > now
      modifies this
      ensures done == !failing
      ensures users == old(users)[user := Outcome(before, failing, lease, now)]
    {
      if failing {
        ReleaseDeletionLease(user, lease);
        done := false;
      } else {
        done := AnonymizeDeletedAccount(user, lease, now);
      }
    }

    method ProcessJobs(
        jobs: set<UserId>, lease: Time, now: Time, failing: set<UserId>, ghost before: Table)
      returns (succeeded: nat, retried: nat)
      requires users == Settled(before, jobs, jobs, failing, lease, now) && lease > now
      requires forall user :: user in jobs ==> user in before && DeletionDue(before[user], now)
      modifies this
      ensures users == Settled(before, jobs, {}, failing, lease, now)
      ensures succeeded == |jobs - failing| && retried == |jobs * failing|
    {
      var rest := jobs;
      succeeded, retried := 0, 0;
      while rest != {}
        invariant users == Settled(before, jobs, rest, failing, lease, now)
        invariant Tallied(jobs, rest, failing, succeeded, retried)
        decreases rest
      {
        ghost var member := Member(rest);
        var user :| user in rest;
        SettleOne(before, jobs, rest, failing, lease, now, user);
        TallyOne(jobs, rest, failing, succeeded, retried, user);
        var done := ProcessJob(user, lease, now, user in failing, before[user]);
        rest := rest - {user};
        if done {
          succeeded := succeeded + 1;
        } else {
          retried := retried + 1;
        }
      }
      assert jobs - rest == jobs;
    }

    /** The maintenance batch: every claimed account is anonymised, or released again when its
        anonymisation transaction fails; nothing else changes. None is ACCOUNT_DELETION_BATCH_LIMIT_INVALID. */
    method ProcessDueAccountDeletionBatch(now: Time, limit: int, failing: set<UserId>)
      returns (summary: Option<BatchSummary>, ghost jobs: set<UserId>)
      modifies this
      ensures !(1 <= limit <= MAX_DELETION_BATCH) ==> summary == None && users == old(users)
      ensures 1 <= limit <= MAX_DELETION_BATCH ==>
        && IsFirstOf(jobs, DueAccounts(old(users), now), DueOrder(old(users)), limit)
        && users == Settled(old(users), jobs, {}, failing, now + DELETION_LEASE_MS, now)
        && summary == Some(BatchSummary(
             |jobs|, |jobs - failing|, |jobs * failing|, jobs != {} && DueAccounts(old(users), now) - jobs != {}))
      ensures 1 <= limit <= MAX_DELETION_BATCH ==>
        ClaimAnswer(old(users), jobs, now, limit) && BatchAnswer(old(users), users, jobs, failing, now)
    {
      if !(1 <= limit <= MAX_DELETION_BATCH) {
        return None, {};
      }
      var lease := now + DELETION_LEASE_MS;
      var claimed, hasMore := ClaimDueDeletionBatch(now, lease, limit);
      jobs := claimed;
      ClaimLeavesTheRestDue(old(users), jobs, now, lease);
      LeasedIsUnsettled(old(users), jobs, failing, lease, now);
      var succeeded, retried := ProcessJobs(claimed, lease, now, failing, old(users));
      summary := Some(BatchSummary(|claimed|, succeeded, retried, hasMore));
    }
  }

  lemma LeasedIsUnsettled(t: Table, jobs: set<UserId>, failing: set<UserId>, lease: Time, now: Time)
    ensures Leased(t, jobs, lease) == Settled(t, jobs, jobs, failing, lease, now)
  {}

  /** What one claimed account comes to. */
  function Outcome(a: Account, failing: bool, lease: Time, now: Time): Account {
    if failing then ClaimedRow(a, lease).(lease := None) else AnonymizedRow(ClaimedRow(a, lease), now)
  }

  /** The table while a batch is worked off: `rest` is still leased. */
  function Settled(
      t: Table, jobs: set<UserId>, rest: set<UserId>, failing: set<UserId>, lease: Time, now: Time): Table
  {
    map user | user in t ::
      if user !in jobs then t[user]
      else if user in rest then ClaimedRow(t[user], lease)
      else Outcome(t[user], user in failing, lease, now)
  }

  lemma SettleOne(
      t: Table, jobs: set<UserId>, rest: set<UserId>, failing: set<UserId>, lease: Time, now: Time, user: UserId)
    requires user in rest && rest <= jobs && user in t
    ensures
      Settled(t, jobs, rest, failing, lease, now)[user := Outcome(t[user], user in failing, lease, now)]
        == Settled(t, jobs, rest - {user}, failing, lease, now)
  {}

  lemma CountOne(done: set<UserId>, user: UserId, failing: set<UserId>)
    requires user !in done
    ensures |(done + {user}) - failing| == |done - failing| + if user in failing then 0 else 1
    ensures |(done + {user}) * failing| == |done * failing| + if user in failing then 1 else 0
  {
    if user in failing {
      assert (done + {user}) * failing == done * failing + {user};
      assert (done + {user}) - failing == done - failing;
    } else {
      assert (done + {user}) - failing == (done - failing) + {user};
      assert (done + {user}) * failing == done * failing;
    }
  }

  /** The jobs done so far, by outcome. */
  predicate Tallied(jobs: set<UserId>, rest: set<UserId>, failing: set<UserId>, succeeded: nat, retried: nat) {
    rest <= jobs && succeeded == |(jobs - rest) - failing| && retried == |(jobs - rest) * failing|
  }

  lemma TallyOne(jobs: set<UserId>, rest: set<UserId>, failing: set<UserId>, succeeded: nat, retried: nat, user: UserId)
    requires Tallied(jobs, rest, failing, succeeded, retried) && user in rest
    ensures
      if user in failing then Tallied(jobs, rest - {user}, failing, succeeded, retried + 1)
      else Tallied(jobs, rest - {user}, failing, succeeded + 1, retried)
  {
    CountOne(jobs - rest, user, failing);
    assert jobs - (rest - {user}) == (jobs - rest) + {user};
  }

  lemma ClaimLeavesTheRestDue(t: Table, selected: set<UserId>, now: Time, lease: Time)
    requires selected <= DueAccounts(t, now) && lease > now
    ensures DueAccounts(Leased(t, selected, lease), now) == DueAccounts(t, now) - selected
  {
    var leased := Leased(t, selected, lease);
    forall user | user in t
      ensures user in DueAccounts(leased, now) <==> user in DueAccounts(t, now) - selected
    {
      assert DeletionDue(leased[user], now) <==> DeletionDue(t[user], now) && user !in selected;
    }
  }
}
