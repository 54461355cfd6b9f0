/** The maintenance batch over account deletions as a run of the lease protocol. */
module DeletionBatch {
  import opened Common
  import opened AccountDeletion
  import opened DeletionLease

  function Done(ids: seq<UserId>, k: nat): set<UserId>
    requires k <= |ids|
  {
    set i | 0 <= i < k :: ids[i]
  }

  ghost predicate Distinct(ids: seq<UserId>) { forall i, j :: 0 <= i < j < |ids| ==> ids[i] != ids[j] }

  /** Claim the accounts one by one, as holders numbered from `base`. */
  function ClaimEvents(ids: seq<UserId>, base: HolderId, now: Time, k: nat): seq<Event>
    requires k <= |ids|
    decreases |ids| - k
  {
    if k == |ids| then [] else [ClaimDue(base + k, ids[k], now)] + ClaimEvents(ids, base, now, k + 1)
  }

  function WorkEvent(ids: seq<UserId>, base: HolderId, failing: set<UserId>, k: nat): Event
    requires k < |ids|
  {
    if ids[k] in failing then ReleaseEvent(base + k) else AnonymizeEvent(base + k)
  }

  /** Anonymise the accounts one by one, or release those whose transaction fails. */
  function WorkEvents(ids: seq<UserId>, base: HolderId, failing: set<UserId>, k: nat): seq<Event>
    requires k <= |ids|
    decreases |ids| - k
  {
    if k == |ids| then [] else [WorkEvent(ids, base, failing, k)] + WorkEvents(ids, base, failing, k + 1)
  }

  predicate Ready(t: System, user: UserId, h: HolderId, now: Time) {
    h in t.holders && t.holders[h] == Holder(user, now + DELETION_LEASE_MS, now, true)
  }

  /** `t` is `s` with the first `k` accounts claimed. */
  ghost predicate ClaimedUpTo(s: System, t: System, ids: seq<UserId>, base: HolderId, now: Time, k: nat)
    requires k <= |ids|
  {
    && t.users == Settled(s.users, Done(ids, k), Done(ids, k), {}, now + DELETION_LEASE_MS, now)
    && t.clock == s.clock
    && (forall h :: h in t.holders ==> h < base + k)
    && (forall i :: 0 <= i < k ==> Ready(t, ids[i], base + i, now))
  }

  lemma ClaimNext(s: System, t: System, ids: seq<UserId>, base: HolderId, now: Time, k: nat)
    requires k < |ids| && Distinct(ids) && ClaimedUpTo(s, t, ids, base, now, k)
    requires now <= s.clock && ids[k] in s.users && DeletionDue(s.users[ids[k]], now)
    ensures ClaimedUpTo(s, ClaimOne(t, base + k, ids[k], now), ids, base, now, k + 1)
  {
    var u := ClaimOne(t, base + k, ids[k], now);
    assert Done(ids, k + 1) == Done(ids, k) + {ids[k]};
    assert ids[k] !in Done(ids, k);
    assert t.users[ids[k]] == s.users[ids[k]] && base + k !in t.holders;
    forall i | 0 <= i < k + 1
      ensures Ready(u, ids[i], base + i, now)
    {
      assert i < k ==> Ready(t, ids[i], base + i, now);
    }
  }

  lemma {:induction false} ClaimsAreARun(s: System, t: System, ids: seq<UserId>, base: HolderId, now: Time, k: nat)
    requires k <= |ids| && Distinct(ids) && ClaimedUpTo(s, t, ids, base, now, k) && now <= s.clock
    requires forall i :: 0 <= i < |ids| ==> ids[i] in s.users && DeletionDue(s.users[ids[i]], now)
    ensures ClaimedUpTo(s, Run(t, ClaimEvents(ids, base, now, k)), ids, base, now, |ids|)
    decreases |ids| - k
  {
    if k < |ids| {
      ClaimNext(s, t, ids, base, now, k);
      RunCons(t, ClaimDue(base + k, ids[k], now), ClaimEvents(ids, base, now, k + 1));
      ClaimsAreARun(s, ClaimOne(t, base + k, ids[k], now), ids, base, now, k + 1);
    }
  }

  /** `t` after the first `k` of the claimed accounts have been worked off. */
  ghost predicate WorkedUpTo(
    s: System, t: System, ids: seq<UserId>, base: HolderId, now: Time, failing: set<UserId>, k: nat)
    requires k <= |ids|
  {
    var all := Done(ids, |ids|);
    && t.users == Settled(s.users, all, all - Done(ids, k), failing, now + DELETION_LEASE_MS, now)
    && (forall i :: k <= i < |ids| ==> Ready(t, ids[i], base + i, now))
  }

  lemma WorkNext(s: System, t: System, ids: seq<UserId>, base: HolderId, now: Time, failing: set<UserId>, k: nat)
    requires k < |ids| && Distinct(ids) && WorkedUpTo(s, t, ids, base, now, failing, k)
    requires ids[k] in s.users && DeletionDue(s.users[ids[k]], now)
    ensures WorkedUpTo(s, Step(t, WorkEvent(ids, base, failing, k)), ids, base, now, failing, k + 1)
  {
    var all, user, u := Done(ids, |ids|), ids[k], Step(t, WorkEvent(ids, base, failing, k));
    assert Ready(t, user, base + k, now);
    assert Done(ids, k + 1) == Done(ids, k) + {user};
    assert user in all && user !in Done(ids, k);
    assert all - Done(ids, k + 1) == (all - Done(ids, k)) - {user};
    SettleOne(s.users, all, all - Done(ids, k), failing, now + DELETION_LEASE_MS, now, user);
    forall i | k + 1 <= i < |ids|
      ensures Ready(u, ids[i], base + i, now)
    {
      assert Ready(t, ids[i], base + i, now);
    }
  }

  lemma {:induction false} WorkIsARun(
      s: System, t: System, ids: seq<UserId>, base: HolderId, now: Time, failing: set<UserId>, k: nat)
    requires k <= |ids| && Distinct(ids) && WorkedUpTo(s, t, ids, base, now, failing, k)
    requires forall i :: 0 <= i < |ids| ==> ids[i] in s.users && DeletionDue(s.users[ids[i]], now)
    ensures WorkedUpTo(s, Run(t, WorkEvents(ids, base, failing, k)), ids, base, now, failing, |ids|)
    decreases |ids| - k
  {
    if k < |ids| {
      WorkNext(s, t, ids, base, now, failing, k);
      RunCons(t, WorkEvent(ids, base, failing, k), WorkEvents(ids, base, failing, k + 1));
      WorkIsARun(s, Step(t, WorkEvent(ids, base, failing, k)), ids, base, now, failing, k + 1);
    }
  }

  /** In any system whose clock has reached `now`, a batch over any due accounts is a run of the lease
      protocol, so whatever every run keeps, the maintenance worker's own code keeps. */
  lemma DeletionBatchIsARun(s: System, ids: seq<UserId>, base: HolderId, now: Time, failing: set<UserId>)
    requires Distinct(ids) && now <= s.clock && forall h :: h in s.holders ==> h < base
    requires forall i :: 0 <= i < |ids| ==> ids[i] in s.users && DeletionDue(s.users[ids[i]], now)
    ensures
      var claimed := Run(s, ClaimEvents(ids, base, now, 0));
      Run(claimed, WorkEvents(ids, base, failing, 0)).users
        == Settled(s.users, Done(ids, |ids|), {}, failing, now + DELETION_LEASE_MS, now)
  {
    assert Settled(s.users, Done(ids, 0), Done(ids, 0), {}, now + DELETION_LEASE_MS, now) == s.users;
    ClaimsAreARun(s, s, ids, base, now, 0);
    var claimed := Run(s, ClaimEvents(ids, base, now, 0));
    var all := Done(ids, |ids|);
    assert all - Done(ids, 0) == all && all - all == {};
    LeasedIsUnsettled(s.users, all, {}, now + DELETION_LEASE_MS, now);
    LeasedIsUnsettled(s.users, all, failing, now + DELETION_LEASE_MS, now);
    WorkIsARun(s, claimed, ids, base, now, failing, 0);
  }
}
