/** Refresh sessions: one row a user and device, rotated by compare and swap, dropped by logout, password
    reset and scheduled deletion. */
module Sessions {
  import opened Common

  type UserId = int
  type DeviceId = int

  /** A stored refresh token hash; bcrypt salts, so every hash that is drawn is new. */
  type Hash = int

  datatype Key = Key(user: UserId, device: DeviceId)

  datatype Session = Session(hash: Hash, expiresAt: Time)

  type Table = map<Key, Session>

  function Saved(t: Table, key: Key, session: Session): Table { t[key := session] }

  predicate Rotatable(t: Table, users: set<UserId>, key: Key, expected: Hash, now: Time) {
    key.user in users && key in t && t[key].hash == expected && t[key].expiresAt > now
  }

  function Rotate(t: Table, users: set<UserId>, key: Key, expected: Hash, next: Session, now: Time): (bool, Table) {
    if Rotatable(t, users, key, expected, now) then (true, t[key := next]) else (false, t)
  }

  function SignedOut(t: Table, key: Key): Table { t - {key} }

  /** What a password reset and a scheduled deletion do to the user's sessions. */
  function Dropped(t: Table, user: UserId): Table { map k | k in t && k.user != user :: t[k] }

  /** validateUserRefreshToken: the stored hash that the presented token matches, unless it has expired. */
  function Validated(t: Table, key: Key, presented: Hash, now: Time): Option<Session> {
    if key in t && t[key].expiresAt > now && t[key].hash == presented then Some(t[key]) else None
  }

  // ------------------------------------------------- what the statements owe their callers

  /** Only the one session changes: the stored hash is replaced if and only if the user exists, the hash is the
      expected one and the session has not expired. */
  predicate RotateAnswer(
    t: Table, after: Table, users: set<UserId>, key: Key, expected: Hash, next: Session, now: Time, rotated: bool)
  {
    && (rotated <==> key.user in users && key in t && t[key].hash == expected && now < t[key].expiresAt)
    && after == if rotated then t[key := next] else t
  }

  lemma RotateAnswers(t: Table, users: set<UserId>, key: Key, expected: Hash, next: Session, now: Time)
    ensures
      var (rotated, after) := Rotate(t, users, key, expected, next, now);
      RotateAnswer(t, after, users, key, expected, next, now, rotated)
  {}

  /** The given sessions are gone, all others stand. */
  ghost predicate OnlyGone(t: Table, after: Table, gone: Key -> bool) {
    && (forall k :: k in after <==> k in t && !gone(k))
    && (forall k :: k in after ==> after[k] == t[k])
  }

  class SessionTable {
    var rows: Table

    constructor ()
      ensures rows == map[]
    {
      rows := map[];
    }

    method DropUser(user: UserId)
      modifies this
      ensures rows == Dropped(old(rows), user)
      ensures OnlyGone(old(rows), rows, (k: Key) => k.user == user)
    {
      rows := map k | k in rows && k.user != user :: rows[k];
    }
  }

  class AuthRepository {
    const sessions: SessionTable
    var users: set<UserId>

    constructor (sessions: SessionTable, users: set<UserId>)
      ensures this.sessions == sessions && this.users == users
    {
      this.sessions, this.users := sessions, users;
    }

    /** Insert the session, or replace the one of the same user and device. */
    method SaveRefreshToken(key: Key, session: Session)
      modifies sessions
      ensures sessions.rows == Saved(old(sessions.rows), key, session)
      ensures key in sessions.rows && sessions.rows[key] == session
      ensures sessions.rows - {key} == old(sessions.rows) - {key}
    {
      sessions.rows := sessions.rows[key := session];
    }

    method RotateRefreshToken(key: Key, expected: Hash, next: Session, now: Time) returns (rotated: bool)
      modifies sessions
      ensures (rotated, sessions.rows) == Rotate(old(sessions.rows), users, key, expected, next, now)
      ensures RotateAnswer(old(sessions.rows), sessions.rows, users, key, expected, next, now, rotated)
    {
      RotateAnswers(sessions.rows, users, key, expected, next, now);
      if key.user !in users {
        return false;
      }
      rotated := key in sessions.rows && sessions.rows[key].hash == expected && sessions.rows[key].expiresAt > now;
      if rotated {
        sessions.rows := sessions.rows[key := next];
      }
    }

    method DeleteRefreshToken(key: Key)
      modifies sessions
      ensures sessions.rows == SignedOut(old(sessions.rows), key)
      ensures OnlyGone(old(sessions.rows), sessions.rows, (k: Key) => k == key)
    {
      sessions.rows := sessions.rows - {key};
    }
  }

  // ------------------------------------------------------------- any history

  /** `issued` remembers which user and device each stored hash was made for, `won` the hashes that were
      rotated away, in order. */
  datatype System = System(rows: Table, users: set<UserId>, issued: map<Hash, Key>, won: seq<Hash>)

  const EMPTY_SYSTEM := System(map[], {}, map[], [])

  /** Every event carries its own moment, in any order; a rotation may come long after its validation. */
  datatype Event =
    | SignUp(user: UserId)
    | SignIn(key: Key, hash: Hash, expiresAt: Time)
    | RotateEvent(key: Key, expected: Hash, next: Hash, expiresAt: Time, now: Time)
    | SignOut(key: Key)
    | DropSessions(user: UserId)

  function Step(s: System, e: Event): System {
    match e
    case SignUp(user) => s.(users := s.users + {user})
    case SignIn(key, hash, expiresAt) =>
      if hash in s.issued || key.user !in s.users then s
      else s.(rows := Saved(s.rows, key, Session(hash, expiresAt)), issued := s.issued[hash := key])
    case RotateEvent(key, expected, next, expiresAt, now) =>
      if next in s.issued then s
      else
        var (rotated, rows) := Rotate(s.rows, s.users, key, expected, Session(next, expiresAt), now);
        if rotated then s.(rows := rows, issued := s.issued[next := key], won := s.won + [expected]) else s
    case SignOut(key) => s.(rows := SignedOut(s.rows, key))
    case DropSessions(user) => s.(rows := Dropped(s.rows, user))
  }

  function Run(s: System, es: seq<Event>): System
    decreases |es|
  {
    if es == [] then s else Run(Step(s, es[0]), es[1..])
  }

  predicate Live(s: System, h: Hash) { h in s.issued && s.issued[h] in s.rows && s.rows[s.issued[h]].hash == h }

  ghost predicate Inv(s: System) {
    && (forall k :: k in s.rows ==> s.rows[k].hash in s.issued && s.issued[s.rows[k].hash] == k)
    && (forall i :: 0 <= i < |s.won| ==> s.won[i] in s.issued && !Live(s, s.won[i]))
    && (forall i, j :: 0 <= i < j < |s.won| ==> s.won[i] != s.won[j])
  }

  lemma StepKeepsInv(s: System, e: Event)
    requires Inv(s)
    ensures Inv(Step(s, e))
  {}

  /** A hash that is no longer stored wins no rotation, and is never stored again. */
  lemma DeadStaysDead(s: System, e: Event, h: Hash)
    requires Inv(s) && h in s.issued && !Live(s, h)
    ensures
      var t := Step(s, e);
      h in t.issued && t.issued[h] == s.issued[h] && !Live(t, h) && (h in t.won ==> h in s.won)
  {}

  lemma {:induction false} RunKeepsInv(s: System, es: seq<Event>)
    requires Inv(s)
    ensures Inv(Run(s, es))
    decreases |es|
  {
    if es != [] {
      StepKeepsInv(s, es[0]);
      RunKeepsInv(Step(s, es[0]), es[1..]);
    }
  }

  lemma {:induction false} DeadWinsNothing(s: System, es: seq<Event>, h: Hash)
    requires Inv(s) && h in s.issued && !Live(s, h)
    ensures !Live(Run(s, es), h) && (h in Run(s, es).won ==> h in s.won)
    decreases |es|
  {
    if es != [] {
      StepKeepsInv(s, es[0]);
      DeadStaysDead(s, es[0], h);
      DeadWinsNothing(Step(s, es[0]), es[1..], h);
    }
  }

  /** Each stored hash wins at most one rotation. */
  lemma HashesRotateOnce(es: seq<Event>)
    ensures forall i, j :: 0 <= i < j < |Run(EMPTY_SYSTEM, es).won| ==>
      Run(EMPTY_SYSTEM, es).won[i] != Run(EMPTY_SYSTEM, es).won[j]
  {
    RunKeepsInv(EMPTY_SYSTEM, es);
  }

  /** The events that end sessions. */
  predicate Ends(e: Event, key: Key) {
    (e.SignOut? && e.key == key) || (e.DropSessions? && e.user == key.user)
  }

  /** Whatever came before and comes after: no hash stored for a user before a password reset or a
      scheduled deletion, or for a device before its logout, is rotated afterwards. */
  lemma EndedSessionsNeverRotate(before: seq<Event>, end: Event, after: seq<Event>, h: Hash)
    requires h in Run(EMPTY_SYSTEM, before).issued && Ends(end, Run(EMPTY_SYSTEM, before).issued[h])
    ensures
      var s := Step(Run(EMPTY_SYSTEM, before), end);
      && !Live(Run(s, after), h)
      && (h in Run(s, after).won ==> h in Run(EMPTY_SYSTEM, before).won)
  {
    RunKeepsInv(EMPTY_SYSTEM, before);
    var s := Run(EMPTY_SYSTEM, before);
    StepKeepsInv(s, end);
    DeadWinsNothing(Step(s, end), after, h);
  }

  /** A presented hash is validated if and only if it is the live one and has not expired; it can then be
      rotated until it is replaced, dropped or expires. */
  lemma ValidatedIsLive(es: seq<Event>, key: Key, presented: Hash, next: Session, now: Time)
    ensures
      var s := Run(EMPTY_SYSTEM, es);
      && (Validated(s.rows, key, presented, now).Some? <==>
            Live(s, presented) && s.issued[presented] == key && now < s.rows[key].expiresAt)
      && (Validated(s.rows, key, presented, now).Some? ==>
            Validated(s.rows, key, presented, now).value == s.rows[key]
            && (Rotate(s.rows, s.users, key, presented, next, now).0 <==> key.user in s.users))
  {
    RunKeepsInv(EMPTY_SYSTEM, es);
  }
}
