/** Phone verification: quotas, the generation rule, attempt claims and the password reset. */
module Phone {
  import opened Common
  import Sessions

  type VerificationId = int
  type PhoneNumber = int
  type IpHash = int

  const PENDING := "pending"
  const COOLDOWN_MS := MINUTE_MS
  const WINDOW_MS := HOUR_MS
  const PHONE_LIMIT: nat := 5
  const IP_LIMIT: nat := 20
  const CODE_TTL_MS := 5 * MINUTE_MS
  const MAX_ATTEMPTS: nat := 5

  datatype Purpose = Signup | Login | PasswordReset

  datatype Verification = Verification(
    phone: PhoneNumber, codeHash: string, purpose: Purpose, ip: IpHash, createdAt: Time, expiresAt: Time,
    verifiedAt: Option<Time>, attempts: nat)

  type Table = map<VerificationId, Verification>

  /** Generation order within a phone number: createdAt, then id. */
  predicate Newer(t: Table, a: VerificationId, b: VerificationId)
    requires a in t && b in t
  {
    t[a].phone == t[b].phone
    && (t[a].createdAt > t[b].createdAt || (t[a].createdAt == t[b].createdAt && a > b))
  }

  predicate IsLatest(t: Table, id: VerificationId) {
    id in t && forall other :: other in t ==> !Newer(t, other, id)
  }

  function OfPhone(t: Table, phone: PhoneNumber, since: Time): set<VerificationId> {
    set id | id in t && t[id].phone == phone && t[id].createdAt > since
  }

  function OfIp(t: Table, ip: IpHash, since: Time): set<VerificationId> {
    set id | id in t && t[id].ip == ip && t[id].createdAt > since
  }

  /** The phone's latest row is younger than the cooldown. */
  predicate CoolingDown(t: Table, phone: PhoneNumber, now: Time) {
    exists id :: id in t && IsLatest(t, id) && t[id].phone == phone && now - t[id].createdAt < COOLDOWN_MS
  }

  datatype Reservation = Reserved(row: Verification) | RetryTooSoon | PhoneLimit | IpLimit

  function PendingRow(phone: PhoneNumber, purpose: Purpose, ip: IpHash, now: Time): Verification {
    Verification(phone, PENDING, purpose, ip, now, now, None, 0)
  }

  function Reserve(t: Table, id: VerificationId, phone: PhoneNumber, purpose: Purpose, ip: IpHash, now: Time)
    : (Reservation, Table)
  {
    var since := now - WINDOW_MS;
    if CoolingDown(t, phone, now) then (RetryTooSoon, t)
    else if |OfPhone(t, phone, since)| >= PHONE_LIMIT then (PhoneLimit, t)
    else if |OfIp(t, ip, since)| >= IP_LIMIT then (IpLimit, t)
    else var row := PendingRow(phone, purpose, ip, now); (Reserved(row), t[id := row])
  }

  function Activate(t: Table, id: VerificationId, codeHash: string, ttl: int, now: Time): (bool, Table) {
    if IsLatest(t, id) && t[id].codeHash == PENDING
    then (true, t[id := t[id].(codeHash := codeHash, expiresAt := now + ttl)])
    else (false, t)
  }

  predicate Claimable(t: Table, id: VerificationId, now: Time) {
    IsLatest(t, id) && t[id].verifiedAt.None? && t[id].expiresAt > now && t[id].attempts < MAX_ATTEMPTS
  }

  function ClaimAttempt(t: Table, id: VerificationId, phone: PhoneNumber, purposes: set<Purpose>, now: Time)
    : (Option<Verification>, Table)
  {
    if Claimable(t, id, now) && t[id].phone == phone && t[id].purpose in purposes then
      var row := t[id].(attempts := t[id].attempts + 1);
      (Some(row), t[id := row])
    else (None, t)
  }

  predicate Verifiable(t: Table, id: VerificationId, now: Time) {
    IsLatest(t, id) && t[id].verifiedAt.None? && t[id].expiresAt > now && t[id].attempts > 0
  }

  function MarkVerified(t: Table, id: VerificationId, now: Time): (bool, Table) {
    if Verifiable(t, id, now) then (true, t[id := t[id].(verifiedAt := Some(now))]) else (false, t)
  }

  /** The users that the reset looks at, with their passwords. */
  datatype Accounts = Accounts(byPhone: map<PhoneNumber, Sessions.UserId>, passwords: map<Sessions.UserId, string>)

  predicate MayReset(t: Table, id: VerificationId, phone: PhoneNumber, now: Time) {
    Verifiable(t, id, now) && t[id].phone == phone && t[id].purpose == PasswordReset
  }

  /** Verify the row, set the password and drop every session of the user, or do nothing at all. */
  function ResetPassword(
      t: Table, accounts: Accounts, sessions: Sessions.Table, id: VerificationId, phone: PhoneNumber,
      password: string, now: Time)
    : (Option<Sessions.UserId>, Table, Accounts, Sessions.Table)
  {
    if phone !in accounts.byPhone || !MayReset(t, id, phone, now) then (None, t, accounts, sessions)
    else
      var user := accounts.byPhone[phone];
      (Some(user), MarkVerified(t, id, now).1,
       accounts.(passwords := accounts.passwords[user := password]), Sessions.Dropped(sessions, user))
  }

  // ------------------------------------------------- what the transactions owe their callers

  /** `id` is the phone's newest row, by creation and then by id. */
  predicate NewestOf(t: Table, id: VerificationId, phone: PhoneNumber) {
    && id in t && t[id].phone == phone
    && forall other :: other in t && t[other].phone == phone && other != id ==>
         t[other].createdAt < t[id].createdAt || (t[other].createdAt == t[id].createdAt && other < id)
  }

  lemma LatestIsNewest(t: Table, id: VerificationId)
    requires id in t
    ensures IsLatest(t, id) <==> NewestOf(t, id, t[id].phone)
  {
    if NewestOf(t, id, t[id].phone) {
      forall other | other in t ensures !Newer(t, other, id) {
        assert t[other].phone == t[id].phone && other != id ==>
          t[other].createdAt < t[id].createdAt || (t[other].createdAt == t[id].createdAt && other < id);
      }
    }
  }

  /** A code is reserved if and only if the phone has no row younger than a minute, and fewer than five rows
      of the phone and twenty of the address are younger than an hour; each refusal names its cause. */
  ghost predicate ReserveAnswer(
    t: Table, after: Table, id: VerificationId, phone: PhoneNumber, purpose: Purpose, ip: IpHash, now: Time,
    result: Reservation)
  {
    var ofPhone := set i | i in t && t[i].phone == phone && now - HOUR_MS < t[i].createdAt;
    var ofIp := set i | i in t && t[i].ip == ip && now - HOUR_MS < t[i].createdAt;
    var tooSoon := exists i :: i in t && t[i].phone == phone && now - MINUTE_MS < t[i].createdAt;
    && (result.RetryTooSoon? <==> tooSoon)
    && (result.PhoneLimit? <==> !tooSoon && 5 <= |ofPhone|)
    && (result.IpLimit? <==> !tooSoon && |ofPhone| < 5 && 20 <= |ofIp|)
    && (result.Reserved? <==> !tooSoon && |ofPhone| < 5 && |ofIp| < 20)
    && (!result.Reserved? ==> after == t)
    && (result.Reserved? ==>
          && after == t[id := result.row]
          && result.row == Verification(phone, "pending", purpose, ip, now, now, None, 0))
  }

  lemma CoolingDownIff(t: Table, phone: PhoneNumber, now: Time)
    ensures CoolingDown(t, phone, now) <==>
      exists i :: i in t && t[i].phone == phone && now - MINUTE_MS < t[i].createdAt
  {
    if !CoolingDown(t, phone, now) {
      forall i | i in t && t[i].phone == phone
        ensures !(now - MINUTE_MS < t[i].createdAt)
      {
        CooledDown(t, phone, now, i);
      }
    }
  }

  lemma ReserveAnswers(t: Table, id: VerificationId, phone: PhoneNumber, purpose: Purpose, ip: IpHash, now: Time)
    ensures
      var (result, after) := Reserve(t, id, phone, purpose, ip, now);
      ReserveAnswer(t, after, id, phone, purpose, ip, now, result)
  {
    CoolingDownIff(t, phone, now);
    assert OfPhone(t, phone, now - WINDOW_MS) == set i | i in t && t[i].phone == phone && now - HOUR_MS < t[i].createdAt;
    assert OfIp(t, ip, now - WINDOW_MS) == set i | i in t && t[i].ip == ip && now - HOUR_MS < t[i].createdAt;
  }

  /** The code is set if and only if the row is its phone's newest and still pending. */
  predicate ActivateAnswer(
    t: Table, after: Table, id: VerificationId, codeHash: string, ttl: int, now: Time, activated: bool)
  {
    && (activated <==> id in t && NewestOf(t, id, t[id].phone) && t[id].codeHash == "pending")
    && after == if activated then t[id := t[id].(codeHash := codeHash, expiresAt := now + ttl)] else t
  }

  /** The row can still be verified: its phone's newest, unverified and not expired. */
  predicate Standing(t: Table, id: VerificationId, phone: PhoneNumber, now: Time) {
    NewestOf(t, id, phone) && t[id].verifiedAt.None? && now < t[id].expiresAt
  }

  /** An attempt is claimed, and counted, if and only if the row of that phone and purpose stands and has had
      fewer than five. */
  predicate ClaimAnswer(
    t: Table, after: Table, id: VerificationId, phone: PhoneNumber, purposes: set<Purpose>, now: Time,
    claimed: Option<Verification>)
  {
    && (claimed.Some? <==> Standing(t, id, phone, now) && t[id].purpose in purposes && t[id].attempts < 5)
    && (claimed.None? ==> after == t)
    && (claimed.Some? ==>
          after == t[id := claimed.value] && claimed.value == t[id].(attempts := t[id].attempts + 1))
  }

  /** The row is verified, now, if and only if it stands and was tried. */
  predicate VerifiedAnswer(t: Table, after: Table, id: VerificationId, now: Time, verified: bool) {
    && (verified <==> id in t && Standing(t, id, t[id].phone, now) && 1 <= t[id].attempts)
    && after == if verified then t[id := t[id].(verifiedAt := Some(now))] else t
  }

  lemma RowAnswers(
      t: Table, id: VerificationId, phone: PhoneNumber, purposes: set<Purpose>, codeHash: string, ttl: int, now: Time)
    ensures
      var (activated, after) := Activate(t, id, codeHash, ttl, now);
      ActivateAnswer(t, after, id, codeHash, ttl, now, activated)
    ensures
      var (claimed, after) := ClaimAttempt(t, id, phone, purposes, now);
      ClaimAnswer(t, after, id, phone, purposes, now, claimed)
    ensures
      var (verified, after) := MarkVerified(t, id, now);
      VerifiedAnswer(t, after, id, now, verified)
  {
    if id in t {
      LatestIsNewest(t, id);
    }
  }

  /** The phone has a user, and its newest row is a reset that stands and was tried. */
  predicate ResetEarned(t: Table, accounts: Accounts, id: VerificationId, phone: PhoneNumber, now: Time) {
    && phone in accounts.byPhone
    && Standing(t, id, phone, now) && t[id].purpose == PasswordReset && 1 <= t[id].attempts
  }

  /** A reset succeeds if and only if it is earned: the row is then verified, the phone's user has the new
      password and no session, and everything else stands. Otherwise nothing changes. */
  ghost predicate ResetAnswer(
    t: Table, t': Table, accounts: Accounts, accounts': Accounts, sessions: Sessions.Table, sessions': Sessions.Table,
    id: VerificationId, phone: PhoneNumber, password: string, now: Time, result: Option<Sessions.UserId>)
  {
    && result
       == (if ResetEarned(t, accounts, id, phone, now) then Some(accounts.byPhone[phone]) else None)
    && (result.None? ==> t' == t && accounts' == accounts && sessions' == sessions)
    && (result.Some? ==>
          var user := result.value;
          && t' == t[id := t[id].(verifiedAt := Some(now))]
          && accounts'.byPhone == accounts.byPhone
          && user in accounts'.passwords && accounts'.passwords[user] == password
          && accounts'.passwords - {user} == accounts.passwords - {user}
          && (forall k :: k in sessions' <==> k in sessions && k.user != user)
          && (forall k :: k in sessions' ==> sessions'[k] == sessions[k]))
  }

  lemma ResetAnswers(
      t: Table, accounts: Accounts, sessions: Sessions.Table, id: VerificationId, phone: PhoneNumber,
      password: string, now: Time)
    ensures
      var (result, t', accounts', sessions') := ResetPassword(t, accounts, sessions, id, phone, password, now);
      ResetAnswer(t, t', accounts, accounts', sessions, sessions', id, phone, password, now, result)
  {
    if id in t {
      LatestIsNewest(t, id);
    }
  }

  class PhoneRepository {
    const sessions: Sessions.SessionTable
    var rows: Table
    var accounts: Accounts

    constructor (sessions: Sessions.SessionTable, accounts: Accounts)
      ensures this.sessions == sessions && this.accounts == accounts && rows == map[]
    {
      this.sessions, this.accounts, rows := sessions, accounts, map[];
    }

    /** `now` is read from the database clock, inside the quota locks. */
    method ReserveVerification(id: VerificationId, phone: PhoneNumber, purpose: Purpose, ip: IpHash, now: Time)
      returns (result: Reservation)
      modifies this`rows
      ensures (result, rows) == Reserve(old(rows), id, phone, purpose, ip, now)
      ensures ReserveAnswer(old(rows), rows, id, phone, purpose, ip, now, result)
    {
      ReserveAnswers(rows, id, phone, purpose, ip, now);
      if CoolingDown(rows, phone, now) {
        return RetryTooSoon;
      }
      var since := now - WINDOW_MS;
      if |OfPhone(rows, phone, since)| >= PHONE_LIMIT {
        return PhoneLimit;
      }
      if |OfIp(rows, ip, since)| >= IP_LIMIT {
        return IpLimit;
      }
      rows := rows[id := PendingRow(phone, purpose, ip, now)];
      return Reserved(rows[id]);
    }

    method ActivateVerification(id: VerificationId, codeHash: string, ttl: int, now: Time) returns (activated: bool)
      modifies this`rows
      ensures (activated, rows) == Activate(old(rows), id, codeHash, ttl, now)
      ensures ActivateAnswer(old(rows), rows, id, codeHash, ttl, now, activated)
    {
      RowAnswers(rows, id, 0, {}, codeHash, ttl, now);
      activated := IsLatest(rows, id) && rows[id].codeHash == PENDING;
      if activated {
        rows := rows[id := rows[id].(codeHash := codeHash, expiresAt := now + ttl)];
      }
    }

    method DeleteVerification(id: VerificationId)
      modifies this`rows
      ensures rows == old(rows) - {id}
    {
      rows := rows - {id};
    }

    method ClaimVerificationAttempt(id: VerificationId, phone: PhoneNumber, purposes: set<Purpose>, now: Time)
      returns (claimed: Option<Verification>)
      modifies this`rows
      ensures (claimed, rows) == ClaimAttempt(old(rows), id, phone, purposes, now)
      ensures ClaimAnswer(old(rows), rows, id, phone, purposes, now, claimed)
    {
      RowAnswers(rows, id, phone, purposes, PENDING, 0, now);
      if !Claimable(rows, id, now) || rows[id].phone != phone || rows[id].purpose !in purposes {
        return None;
      }
      rows := rows[id := rows[id].(attempts := rows[id].attempts + 1)];
      return Some(rows[id]);
    }

    method MarkAsVerified(id: VerificationId, now: Time) returns (verified: bool)
      modifies this`rows
      ensures (verified, rows) == MarkVerified(old(rows), id, now)
      ensures VerifiedAnswer(old(rows), rows, id, now, verified)
    {
      RowAnswers(rows, id, 0, {}, PENDING, 0, now);
      verified := Verifiable(rows, id, now);
      if verified {
        rows := rows[id := rows[id].(verifiedAt := Some(now))];
      }
    }

    method ResetPasswordWithVerification(id: VerificationId, phone: PhoneNumber, password: string, now: Time)
      returns (user: Option<Sessions.UserId>)
      modifies this, sessions
      ensures (user, rows, accounts, sessions.rows)
           == ResetPassword(old(rows), old(accounts), old(sessions.rows), id, phone, password, now)
      ensures ResetAnswer(
        old(rows), rows, old(accounts), accounts, old(sessions.rows), sessions.rows, id, phone, password, now, user)
    {
      ResetAnswers(rows, accounts, sessions.rows, id, phone, password, now);
      if phone !in accounts.byPhone || !MayReset(rows, id, phone, now) {
        return None;
      }
      rows := rows[id := rows[id].(verifiedAt := Some(now))];
      accounts := accounts.(passwords := accounts.passwords[accounts.byPhone[phone] := password]);
      sessions.DropUser(accounts.byPhone[phone]);
      return Some(accounts.byPhone[phone]);
    }
  }

  // -------------------------------------------------------------- generations

  lemma {:induction false} LatestExists(t: Table, ids: set<VerificationId>, phone: PhoneNumber) returns (id: VerificationId)
    requires ids != {} && ids <= t.Keys && forall i :: i in ids ==> t[i].phone == phone
    ensures id in ids && forall other :: other in ids ==> !Newer(t, other, id)
    decreases ids
  {
    id := Member(ids);
    if ids != {id} {
      var first := id;
      var other := LatestExists(t, ids - {first}, phone);
      if Newer(t, other, first) {
        id := other;
      }
      forall i | i in ids
        ensures !Newer(t, i, id)
      {
        assert i == first || i in ids - {first};
      }
    }
  }

  /** No cooldown means that every row of the phone is at least a minute older. */
  lemma CooledDown(t: Table, phone: PhoneNumber, now: Time, id: VerificationId)
    requires !CoolingDown(t, phone, now) && id in t && t[id].phone == phone
    ensures now - t[id].createdAt >= COOLDOWN_MS
  {
    var ids := set i | i in t && t[i].phone == phone;
    assert id in ids;
    var latest := LatestExists(t, ids, phone);
    assert IsLatest(t, latest) by {
      forall other | other in t ensures !Newer(t, other, latest) {
        assert t[other].phone == phone ==> other in ids;
      }
    }
    assert !Newer(t, id, latest);
  }

  // ---------------------------------------------------------------- quotas

  function PhoneWindow(t: Table, phone: PhoneNumber, from: Time): set<VerificationId> {
    set id | id in t && t[id].phone == phone && from < t[id].createdAt <= from + WINDOW_MS
  }

  function IpWindow(t: Table, ip: IpHash, from: Time): set<VerificationId> {
    set id | id in t && t[id].ip == ip && from < t[id].createdAt <= from + WINDOW_MS
  }

  predicate Spaced(a: Verification, b: Verification) {
    a.phone == b.phone ==> a.createdAt - b.createdAt >= COOLDOWN_MS || b.createdAt - a.createdAt >= COOLDOWN_MS
  }

  ghost predicate QuotaInv(t: Table) {
    && (forall a, b :: a in t && b in t && a != b ==> Spaced(t[a], t[b]))
    && (forall phone, from :: |PhoneWindow(t, phone, from)| <= PHONE_LIMIT)
    && (forall ip, from :: |IpWindow(t, ip, from)| <= IP_LIMIT)
  }

  lemma ReserveKeepsPhoneWindow(
      t: Table, id: VerificationId, phone: PhoneNumber, purpose: Purpose, ip: IpHash, now: Time, from: Time,
      anyPhone: PhoneNumber)
    requires id !in t && |PhoneWindow(t, anyPhone, from)| <= PHONE_LIMIT
    ensures |PhoneWindow(Reserve(t, id, phone, purpose, ip, now).1, anyPhone, from)| <= PHONE_LIMIT
  {
    var u := Reserve(t, id, phone, purpose, ip, now).1;
    if id in PhoneWindow(u, anyPhone, from) {
      assert PhoneWindow(u, anyPhone, from) == PhoneWindow(t, anyPhone, from) + {id};
      SubsetSize(PhoneWindow(t, anyPhone, from), OfPhone(t, phone, now - WINDOW_MS));
    } else {
      assert PhoneWindow(u, anyPhone, from) == PhoneWindow(t, anyPhone, from);
    }
  }

  lemma ReserveKeepsIpWindow(
      t: Table, id: VerificationId, phone: PhoneNumber, purpose: Purpose, ip: IpHash, now: Time, from: Time,
      anyIp: IpHash)
    requires id !in t && |IpWindow(t, anyIp, from)| <= IP_LIMIT
    ensures |IpWindow(Reserve(t, id, phone, purpose, ip, now).1, anyIp, from)| <= IP_LIMIT
  {
    var u := Reserve(t, id, phone, purpose, ip, now).1;
    if id in IpWindow(u, anyIp, from) {
      assert IpWindow(u, anyIp, from) == IpWindow(t, anyIp, from) + {id};
      SubsetSize(IpWindow(t, anyIp, from), OfIp(t, ip, now - WINDOW_MS));
    } else {
      assert IpWindow(u, anyIp, from) == IpWindow(t, anyIp, from);
    }
  }

  lemma ReserveKeepsQuota(t: Table, id: VerificationId, phone: PhoneNumber, purpose: Purpose, ip: IpHash, now: Time)
    requires QuotaInv(t) && id !in t
    ensures QuotaInv(Reserve(t, id, phone, purpose, ip, now).1)
  {
    var u := Reserve(t, id, phone, purpose, ip, now).1;
    forall anyPhone, from
      ensures |PhoneWindow(u, anyPhone, from)| <= PHONE_LIMIT
    {
      ReserveKeepsPhoneWindow(t, id, phone, purpose, ip, now, from, anyPhone);
    }
    forall anyIp, from
      ensures |IpWindow(u, anyIp, from)| <= IP_LIMIT
    {
      ReserveKeepsIpWindow(t, id, phone, purpose, ip, now, from, anyIp);
    }
    if u != t {
      forall a | a in t && t[a].phone == phone
        ensures now - t[a].createdAt >= COOLDOWN_MS
      {
        CooledDown(t, phone, now, a);
      }
    }
  }

  /** Rows keep what the quotas look at, and none is added. */
  ghost predicate Shrinks(t: Table, u: Table) {
    forall id :: id in u ==>
      id in t && u[id].phone == t[id].phone && u[id].ip == t[id].ip && u[id].createdAt == t[id].createdAt
  }

  lemma ShrinkingKeepsQuota(t: Table, u: Table)
    requires QuotaInv(t) && Shrinks(t, u)
    ensures QuotaInv(u)
  {
    forall phone, from
      ensures |PhoneWindow(u, phone, from)| <= PHONE_LIMIT
    {
      forall id | id in PhoneWindow(u, phone, from) ensures id in PhoneWindow(t, phone, from) {
        assert id in u;
      }
      SubsetSize(PhoneWindow(u, phone, from), PhoneWindow(t, phone, from));
    }
    forall ip, from
      ensures |IpWindow(u, ip, from)| <= IP_LIMIT
    {
      forall id | id in IpWindow(u, ip, from) ensures id in IpWindow(t, ip, from) {
        assert id in u;
      }
      SubsetSize(IpWindow(u, ip, from), IpWindow(t, ip, from));
    }
  }
}
