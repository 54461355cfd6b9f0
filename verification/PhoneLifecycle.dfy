/** The life of verification rows over any interleaving of requests on one non-decreasing database clock. */
module PhoneLifecycle {
  import opened Common
  import opened Phone
  import Sessions

  /** A worker that claimed an attempt and found the code to match; it keeps the claimed row. */
  datatype Checked = Checked(id: VerificationId, row: Verification)

  /** What ended as verified: the table as it was just before, and when. */
  datatype Success = Success(id: VerificationId, before: Table, at: Time, reset: bool)

  datatype System = System(
    clock: Time, rows: Table, accounts: Accounts, sessions: Sessions.Table, issued: set<VerificationId>,
    checked: set<Checked>, log: seq<Success>)

  datatype Event =
    | Tick(to: Time)
    | Request(id: VerificationId, phone: PhoneNumber, purpose: Purpose, ip: IpHash, now: Time)
    | Activated(id: VerificationId, codeHash: string)
    | Removed(id: VerificationId)
    | ClaimForSignIn(id: VerificationId, phone: PhoneNumber, matches: bool)
    | ClaimForReset(id: VerificationId, phone: PhoneNumber, matches: bool)
    | SignInVerified(claim: Checked)
    | ResetDone(claim: Checked, phone: PhoneNumber, password: string)
    | AccountsChange(accounts: Accounts)
    | SessionsChange(sessions: Sessions.Table)

  const SIGN_IN: set<Purpose> := {Signup, Login}

  function Claim(s: System, id: VerificationId, phone: PhoneNumber, purposes: set<Purpose>, matches: bool): System {
    var (claimed, rows) := ClaimAttempt(s.rows, id, phone, purposes, s.clock);
    s.(rows := rows,
       checked := if claimed.Some? && matches then s.checked + {Checked(id, claimed.value)} else s.checked)
  }

  /** The clock of a reservation is read to the millisecond, so it may be a little behind. */
  function Step(s: System, e: Event): System {
    match e
    case Tick(to) => if to >= s.clock then s.(clock := to) else s
    case Request(id, phone, purpose, ip, now) =>
      if id in s.issued || now > s.clock then s
      else s.(rows := Reserve(s.rows, id, phone, purpose, ip, now).1, issued := s.issued + {id})
    case Activated(id, codeHash) =>
      if codeHash == PENDING then s else s.(rows := Activate(s.rows, id, codeHash, CODE_TTL_MS, s.clock).1)
    case Removed(id) => s.(rows := s.rows - {id})
    case ClaimForSignIn(id, phone, matches) => Claim(s, id, phone, SIGN_IN, matches)
    case ClaimForReset(id, phone, matches) => Claim(s, id, phone, {PasswordReset}, matches)
    case SignInVerified(claim) =>
      if claim !in s.checked || claim.row.purpose !in SIGN_IN then s
      else
        var (verified, rows) := MarkVerified(s.rows, claim.id, s.clock);
        if verified
        then s.(rows := rows, log := s.log + [Success(claim.id, s.rows, s.clock, false)])
        else s
    case ResetDone(claim, phone, password) =>
      if claim !in s.checked then s
      else
        var (user, rows, accounts, sessions) :=
          ResetPassword(s.rows, s.accounts, s.sessions, claim.id, phone, password, s.clock);
        if user.Some?
        then s.(rows := rows, accounts := accounts, sessions := sessions,
                log := s.log + [Success(claim.id, s.rows, s.clock, true)])
        else s
    case AccountsChange(accounts) => s.(accounts := accounts)
    case SessionsChange(sessions) => s.(sessions := sessions)
  }

  function Run(s: System, es: seq<Event>): System
    decreases |es|
  {
    if es == [] then s else Run(Step(s, es[0]), es[1..])
  }

  /** A row is pending, expired and untried until it is activated; it is verified, if ever, in time and
      after one to five attempts. */
  predicate RowOk(row: Verification, clock: Time) {
    && row.createdAt <= clock
    && row.attempts <= MAX_ATTEMPTS
    && (row.codeHash == PENDING ==> row.expiresAt == row.createdAt && row.attempts == 0 && row.verifiedAt.None?)
    && (row.verifiedAt.Some? ==>
          row.verifiedAt.value < row.expiresAt && row.verifiedAt.value <= clock && 1 <= row.attempts)
  }

  /** Verified while latest, activated, in time, after one to five attempts, for the purpose claimed. */
  predicate ProperSuccess(x: Success) {
    && IsLatest(x.before, x.id)
    && var row := x.before[x.id];
       && row.codeHash != PENDING && row.verifiedAt.None?
       && 1 <= row.attempts <= MAX_ATTEMPTS && row.createdAt <= x.at < row.expiresAt
       && (x.reset <==> row.purpose == PasswordReset)
  }

  predicate SuccessOk(s: System, x: Success) {
    ProperSuccess(x) && x.id in s.issued && (x.id in s.rows ==> s.rows[x.id].verifiedAt == Some(x.at))
  }

  predicate CheckedOk(s: System, c: Checked) {
    && c.id in s.issued && c.row.attempts >= 1
    && (c.id in s.rows ==>
          && s.rows[c.id].purpose == c.row.purpose && s.rows[c.id].codeHash == c.row.codeHash
          && s.rows[c.id].attempts >= c.row.attempts)
  }

  predicate Logged(s: System, id: VerificationId) { exists i :: 0 <= i < |s.log| && s.log[i].id == id }

  ghost predicate RowsOk(s: System) {
    && QuotaInv(s.rows)
    && (forall id :: id in s.rows ==> id in s.issued && RowOk(s.rows[id], s.clock))
    && (forall c :: c in s.checked ==> CheckedOk(s, c))
  }

  ghost predicate LogOk(s: System) {
    && (forall i :: 0 <= i < |s.log| ==> SuccessOk(s, s.log[i]))
    && (forall i, j :: 0 <= i < j < |s.log| ==> s.log[i].id != s.log[j].id)
    && (forall id :: id in s.rows && s.rows[id].verifiedAt.Some? ==> Logged(s, id))
  }

  ghost predicate Inv(s: System) { RowsOk(s) && LogOk(s) }

  lemma RequestKeepsInv(s: System, e: Event)
    requires Inv(s) && e.Request?
    ensures Inv(Step(s, e))
  {
    if e.id !in s.issued {
      ReserveKeepsQuota(s.rows, e.id, e.phone, e.purpose, e.ip, e.now);
    }
  }

  /** The quota columns of the rows stay, whatever else an event does. */
  lemma RowsShrink(s: System, e: Event)
    requires !e.Request?
    ensures Shrinks(s.rows, Step(s, e).rows)
  {}

  lemma ActivatedKeepsRows(s: System, e: Event)
    requires Inv(s) && (e.Activated? || e.Removed? || e.Tick?)
    ensures RowsOk(Step(s, e))
  {
    RowsShrink(s, e);
    ShrinkingKeepsQuota(s.rows, Step(s, e).rows);
  }

  /** Rows that keep their success keep the log right. */
  lemma QuietKeepsLog(s: System, t: System)
    requires LogOk(s) && t.log == s.log && t.issued == s.issued
    requires forall id :: id in t.rows ==> id in s.rows && t.rows[id].verifiedAt == s.rows[id].verifiedAt
    ensures LogOk(t)
  {
    forall i | 0 <= i < |t.log|
      ensures SuccessOk(t, t.log[i])
    {
      assert SuccessOk(s, s.log[i]);
    }
    forall id | id in t.rows && t.rows[id].verifiedAt.Some?
      ensures Logged(t, id)
    {
      assert Logged(s, id);
    }
  }

  lemma QuietStep(s: System, e: Event)
    requires e.Activated? || e.Removed? || e.Tick? || e.ClaimForSignIn? || e.ClaimForReset?
    ensures Step(s, e).log == s.log && Step(s, e).issued == s.issued
    ensures forall id :: id in Step(s, e).rows ==> id in s.rows && Step(s, e).rows[id].verifiedAt == s.rows[id].verifiedAt
  {}

  lemma ClaimKeepsChecked(s: System, e: Event)
    requires Inv(s) && (e.ClaimForSignIn? || e.ClaimForReset?)
    ensures forall c :: c in Step(s, e).checked ==> CheckedOk(Step(s, e), c)
  {}

  lemma ClaimKeepsRows(s: System, e: Event)
    requires Inv(s) && (e.ClaimForSignIn? || e.ClaimForReset?)
    ensures RowsOk(Step(s, e))
  {
    ClaimKeepsChecked(s, e);
    RowsShrink(s, e);
    ShrinkingKeepsQuota(s.rows, Step(s, e).rows);
  }

  /** The step verifies the row for the purpose that the worker claimed it for, and notes that. */
  predicate Succeeds(s: System, t: System, id: VerificationId, reset: bool) {
    && Verifiable(s.rows, id, s.clock) && (reset <==> s.rows[id].purpose == PasswordReset)
    && t.rows == s.rows[id := s.rows[id].(verifiedAt := Some(s.clock))]
    && t.log == s.log + [Success(id, s.rows, s.clock, reset)]
    && t.checked == s.checked && t.issued == s.issued && t.clock == s.clock
  }

  lemma SignInSucceeds(s: System, e: Event)
    requires Inv(s) && e.SignInVerified?
    ensures Step(s, e) == s || Succeeds(s, Step(s, e), e.claim.id, false)
  {
    assert e.claim in s.checked ==> CheckedOk(s, e.claim);
  }

  lemma ResetSucceeds(s: System, e: Event)
    requires e.ResetDone?
    ensures Step(s, e) == s || Succeeds(s, Step(s, e), e.claim.id, true)
  {}

  lemma SuccessKeepsRows(s: System, t: System, id: VerificationId, reset: bool)
    requires Inv(s) && Succeeds(s, t, id, reset)
    ensures RowsOk(t)
  {
    assert RowOk(s.rows[id], s.clock);
    ShrinkingKeepsQuota(s.rows, t.rows);
    forall c | c in t.checked
      ensures CheckedOk(t, c)
    {
      assert CheckedOk(s, c);
    }
  }

  lemma SuccessIsProper(s: System, t: System, id: VerificationId, reset: bool)
    requires Inv(s) && Succeeds(s, t, id, reset)
    ensures SuccessOk(t, t.log[|s.log|]) && forall i :: 0 <= i < |s.log| ==> s.log[i].id != id && SuccessOk(t, s.log[i])
  {
    assert RowOk(s.rows[id], s.clock);
    forall i | 0 <= i < |s.log|
      ensures s.log[i].id != id && SuccessOk(t, s.log[i])
    {
      assert SuccessOk(s, s.log[i]);
    }
  }

  lemma SuccessKeepsLog(s: System, t: System, id: VerificationId, reset: bool)
    requires Inv(s) && Succeeds(s, t, id, reset)
    ensures LogOk(t)
  {
    SuccessIsProper(s, t, id, reset);
    forall other | other in t.rows && t.rows[other].verifiedAt.Some?
      ensures Logged(t, other)
    {
      if other == id {
        assert t.log[|s.log|].id == id;
      } else {
        assert Logged(s, other);
        var i :| 0 <= i < |s.log| && s.log[i].id == other;
        assert t.log[i].id == other;
      }
    }
  }

  lemma SuccessKeepsInv(s: System, e: Event)
    requires Inv(s) && (e.SignInVerified? || e.ResetDone?)
    ensures Inv(Step(s, e))
  {
    if e.SignInVerified? {
      SignInSucceeds(s, e);
    } else {
      ResetSucceeds(s, e);
    }
    if Step(s, e) != s {
      SuccessKeepsRows(s, Step(s, e), e.claim.id, e.ResetDone?);
      SuccessKeepsLog(s, Step(s, e), e.claim.id, e.ResetDone?);
    }
  }

  lemma StepKeepsInv(s: System, e: Event)
    requires Inv(s)
    ensures Inv(Step(s, e))
  {
    if e.Request? {
      RequestKeepsInv(s, e);
    } else if e.SignInVerified? || e.ResetDone? {
      SuccessKeepsInv(s, e);
    } else if !e.AccountsChange? && !e.SessionsChange? {
      QuietStep(s, e);
      QuietKeepsLog(s, Step(s, e));
      if e.ClaimForSignIn? || e.ClaimForReset? {
        ClaimKeepsRows(s, e);
      } else {
        ActivatedKeepsRows(s, e);
      }
    }
  }

  lemma {:induction false} RunKeepsInv(s: System, es: seq<Event>)
    requires Inv(s)
    ensures Inv(Run(s, es))
    decreases |es|
  {
    if es != [] {
      StepKeepsInv(s, es[0]);
      RunKeepsInv(Step(s, es[0]), es[1..]);
    }
  }

  // ------------------------------------------------------------ main results

  function Initial(clock: Time, accounts: Accounts, sessions: Sessions.Table): System {
    System(clock, map[], accounts, sessions, {}, {}, [])
  }

  /** Over any interleaving: a row is verified at most once, and only while latest for its phone, activated,
      before it expires and after one to five claimed attempts, a password reset only by a row made for
      one; rows of one phone are a minute apart, at most five fall into any hour, and twenty of one
      address. */
  lemma VerificationsAreProper(clock: Time, accounts: Accounts, sessions: Sessions.Table, es: seq<Event>)
    ensures
      var s := Run(Initial(clock, accounts, sessions), es);
      && (forall i :: 0 <= i < |s.log| ==> ProperSuccess(s.log[i]))
      && (forall i, j :: 0 <= i < j < |s.log| ==> s.log[i].id != s.log[j].id)
      && (forall id :: id in s.rows ==> s.rows[id].attempts <= MAX_ATTEMPTS)
      && QuotaInv(s.rows)
  {
    var s := Initial(clock, accounts, sessions);
    assert QuotaInv(s.rows) by {
      assert forall phone, from :: PhoneWindow(s.rows, phone, from) == {};
      assert forall ip, from :: IpWindow(s.rows, ip, from) == {};
    }
    RunKeepsInv(s, es);
    var t := Run(s, es);
    assert forall id :: id in t.rows ==> RowOk(t.rows[id], t.clock);
  }

  /** At most one row of a phone can be claimed at any time. */
  lemma OneClaimable(t: Table, a: VerificationId, b: VerificationId, now: Time)
    requires Claimable(t, a, now) && Claimable(t, b, now) && t[a].phone == t[b].phone
    ensures a == b
  {
    assert !Newer(t, a, b) && !Newer(t, b, a);
  }

  /** A row only ever advances: its code is set once, its attempts grow, its success stays; and once it is
      gone it does not come back. */
  predicate Advanced(before: Verification, after: Verification) {
    && after.phone == before.phone && after.purpose == before.purpose && after.createdAt == before.createdAt
    && before.attempts <= after.attempts
    && (before.codeHash != PENDING ==> after.codeHash == before.codeHash && after.expiresAt == before.expiresAt)
    && (before.verifiedAt.Some? ==> after.verifiedAt == before.verifiedAt)
  }

  lemma RowStep(s: System, e: Event, id: VerificationId)
    requires id in s.issued
    ensures id in Step(s, e).issued
    ensures id in Step(s, e).rows ==> id in s.rows && Advanced(s.rows[id], Step(s, e).rows[id])
  {}

  lemma {:induction false} RowsOnlyAdvance(s: System, es: seq<Event>, id: VerificationId)
    requires id in s.issued
    ensures id in Run(s, es).rows ==> id in s.rows && Advanced(s.rows[id], Run(s, es).rows[id])
    decreases |es|
  {
    if es != [] {
      RowStep(s, es[0], id);
      RowsOnlyAdvance(Step(s, es[0]), es[1..], id);
    }
  }

  // ------------------------------------------------------------ the password

  /** The event resets the user's password: a worker that saw the code match presents it, and it is earned. */
  predicate Resets(s: System, e: Event, user: Sessions.UserId) {
    && e.ResetDone? && e.claim in s.checked
    && ResetEarned(s.rows, s.accounts, e.claim.id, e.phone, s.clock) && s.accounts.byPhone[e.phone] == user
  }

  /** The password of the user's last successful reset in a run. */
  function LastReset(s: System, es: seq<Event>, user: Sessions.UserId): Option<string>
    decreases |es|
  {
    if es == [] then None
    else
      var later := LastReset(Step(s, es[0]), es[1..], user);
      if later.Some? then later else if Resets(s, es[0], user) then Some(es[0].password) else None
  }

  function PasswordOf(s: System, user: Sessions.UserId): Option<string> {
    if user in s.accounts.passwords then Some(s.accounts.passwords[user]) else None
  }

  lemma ResetStep(s: System, e: Event, user: Sessions.UserId)
    requires !e.AccountsChange?
    ensures PasswordOf(Step(s, e), user) == if Resets(s, e, user) then Some(e.password) else PasswordOf(s, user)
  {
    if e.ResetDone? {
      ResetAnswers(s.rows, s.accounts, s.sessions, e.claim.id, e.phone, e.password, s.clock);
    }
  }

  /** While nothing else changes the accounts, a user's password is that of the last successful reset, or
      what it was before the run. */
  lemma {:induction false} PasswordIsLastReset(s: System, es: seq<Event>, user: Sessions.UserId)
    requires forall i :: 0 <= i < |es| ==> !es[i].AccountsChange?
    ensures PasswordOf(Run(s, es), user)
         == if LastReset(s, es, user).Some? then LastReset(s, es, user) else PasswordOf(s, user)
    decreases |es|
  {
    if es != [] {
      ResetStep(s, es[0], user);
      PasswordIsLastReset(Step(s, es[0]), es[1..], user);
    }
  }

  /** A reset ends every session that its user had, and no other. */
  lemma ResetEndsSessions(s: System, e: Event, user: Sessions.UserId)
    requires Resets(s, e, user)
    ensures forall k :: k in Step(s, e).sessions <==> k in s.sessions && k.user != user
    ensures e.claim.id in Step(s, e).rows && Step(s, e).rows[e.claim.id].verifiedAt == Some(s.clock)
  {
    ResetAnswers(s.rows, s.accounts, s.sessions, e.claim.id, e.phone, e.password, s.clock);
  }
}
