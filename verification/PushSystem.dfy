/** The push outbox as a system: notifications, token changes, account deletion and any number of
    delivery workers interleave; a worker may crash between its claim and its result, and every event
    carries its own moment, in any order. */
module PushSystem {
  import opened Common
  import opened PushTable
  import opened PushRules
  import opened PushOutcomes
  import opened PushService

  /** One delivery or receipt attempt of a job, numbered by the job's own counter. */
  datatype Attempt = Attempt(id: JobId, receipt: bool, number: nat)

  /** What a claim handed to a worker: the row as claimed, and the moment the worker keeps using. */
  datatype Handout = Handout(row: Job, now: Time)

  datatype Entry = Handed(attempt: Attempt) | Recorded(attempt: Attempt)

  datatype System = System(
    db: Database,
    issuedNotifications: set<NotificationId>,
    issuedTokens: set<TokenId>,
    handouts: map<Attempt, Handout>,
    log: seq<Entry>)

  const EMPTY_SYSTEM := System(Database(map[], map[], map[]), {}, {}, map[], [])

  datatype Event =
    | Notify(id: NotificationId, user: UserId, enqueue: bool, now: Time)
    | Register(user: UserId, device: DeviceId, value: string, platform: string, newId: TokenId, now: Time)
    | Unregister(user: UserId, device: DeviceId, now: Time)
    | ScheduleDeletion(user: UserId, now: Time)
    | AnonymizeAccount(user: UserId)
    | ClaimSend(job: JobId, now: Time)
    | ClaimReceipt(job: JobId, now: Time)
    | FinishSend(attempt: Attempt, answer: Option<Answer>)
    | FinishReceipt(attempt: Attempt, answer: Option<Answer>)

  function Claim(s: System, id: JobId, row: Job, attempt: Attempt, now: Time): System {
    s.(db := s.db.(jobs := s.db.jobs[id := row]),
       handouts := s.handouts[attempt := Handout(row, now)],
       log := s.log + [Handed(attempt)])
  }

  function SendStep(s: System, id: JobId, now: Time): System {
    if id !in s.db.jobs || !SendDue(s.db.jobs[id], now) then s
    else
      var row := SendClaimed(s.db.jobs[id], now + PUSH_LEASE_MS);
      Claim(s, id, row, Attempt(id, false, row.sendAttempts), now)
  }

  function ReceiptStep(s: System, id: JobId, now: Time): System {
    if id !in s.db.jobs || !ReceiptDue(s.db.jobs[id], now) then s
    else
      var row := ReceiptClaimed(s.db.jobs[id], now + PUSH_LEASE_MS);
      Claim(s, id, row, Attempt(id, true, row.receiptAttempts), now)
  }

  function SendOutcome(h: Handout, a: Attempt, answer: Option<Answer>): SendResult {
    SendResult(a.id, a.number, TicketKind(h.row, answer, h.now))
  }

  function ReceiptOutcome(h: Handout, a: Attempt, answer: Option<Answer>): ReceiptResult {
    ReceiptResult(a.id, a.number, if h.row.ticket.None? then ReceiptPermanent(None) else CheckKind(h.row, answer, h.now))
  }

  predicate Fence(s: System, a: Attempt) {
    a.id in s.db.jobs
    && if a.receipt then s.db.jobs[a.id].status == ReceiptChecking && s.db.jobs[a.id].receiptAttempts == a.number
       else s.db.jobs[a.id].status == Sending && s.db.jobs[a.id].sendAttempts == a.number
  }

  function Record(s: System, a: Attempt): seq<Entry> {
    if Fence(s, a) then s.log + [Recorded(a)] else s.log
  }

  function Step(s: System, e: Event): System {
    match e
    case Notify(id, user, enqueue, now) =>
      if id in s.issuedNotifications then s
      else s.(db := Created(s.db, id, user, enqueue, now), issuedNotifications := s.issuedNotifications + {id})
    case Register(user, device, value, platform, newId, now) =>
      if newId in s.issuedTokens || !TokensUnique(s.db.tokens) then s
      else s.(db := Registered(s.db, user, device, value, platform, newId, now).1,
              issuedTokens := s.issuedTokens + {newId})
    case Unregister(user, device, now) => s.(db := Unregistered(s.db, user, device, now).1)
    case ScheduleDeletion(user, now) => s.(db := DeletionScheduled(s.db, user, now))
    case AnonymizeAccount(user) => s.(db := AccountAnonymized(s.db, user))
    case ClaimSend(id, now) => SendStep(s, id, now)
    case ClaimReceipt(id, now) => ReceiptStep(s, id, now)
    case FinishSend(a, answer) =>
      if a.receipt || a !in s.handouts then s
      else s.(db := ApplySend(s.db, SendOutcome(s.handouts[a], a, answer), s.handouts[a].now), log := Record(s, a))
    case FinishReceipt(a, answer) =>
      if !a.receipt || a !in s.handouts then s
      else s.(db := ApplyReceipt(s.db, ReceiptOutcome(s.handouts[a], a, answer), s.handouts[a].now), log := Record(s, a))
  }

  function Run(s: System, es: seq<Event>): System
    decreases |es|
  {
    if es == [] then s else Run(Step(s, es[0]), es[1..])
  }

  // ------------------------------------------------------- aim: job and token

  /** An open job is aimed: its token exists, carries the value the job will be or was sent to, and
      belongs to the notification's recipient. */
  predicate Aimed(db: Database, j: JobId, job: Job) {
    OpenStatus(job.status) ==>
      && job.pushToken == Some(j.token)
      && j.token in db.tokens
      && db.tokens[j.token].value == job.snapshot
      && j.notification in db.notifications
      && db.notifications[j.notification] == db.tokens[j.token].user
  }

  /** Counters and states agree: attempts left in each waiting state, a ticket from the first receipt on. */
  predicate Paced(job: Job) {
    && (job.status == Queued ==> job.sendAttempts < MAX_PUSH_SEND_ATTEMPTS && job.receiptAttempts == 0)
    && (job.status == Sending ==> job.receiptAttempts == 0 && job.lease.Some?)
    && (job.status == ReceiptPending ==>
          job.ticket.Some? && job.receiptAvailableAt.Some? && job.receiptAttempts < MAX_PUSH_RECEIPT_ATTEMPTS)
    && (job.status == ReceiptChecking ==> job.ticket.Some? && job.receiptAvailableAt.Some? && job.lease.Some?)
    && (job.pushToken.Some? || !OpenStatus(job.status))
    && (OpenStatus(job.status) <==> job.completedAt.None?)
  }

  /** What holds of the three tables at any time. */
  ghost predicate DbOk(db: Database) {
    && TokensUnique(db.tokens)
    && (forall j :: j in db.jobs ==>
          Aimed(db, j, db.jobs[j]) && Paced(db.jobs[j]) && j.notification in db.notifications)
  }

  /** Jobs keep their counters, open ones their status, and one that is still in flight its whole row. */
  ghost predicate Undisturbed(before: Database, after: Database) {
    forall j :: j in after.jobs ==>
      && j in before.jobs
      && after.jobs[j].sendAttempts == before.jobs[j].sendAttempts
      && after.jobs[j].receiptAttempts == before.jobs[j].receiptAttempts
      && (OpenStatus(after.jobs[j].status) ==> after.jobs[j].status == before.jobs[j].status)
      && (InFlight(after.jobs[j].status) ==> after.jobs[j] == before.jobs[j])
  }

  lemma RemovedJob(db: Database, ids: set<TokenId>, now: Time, j: JobId)
    requires DbOk(db) && j in db.jobs
    ensures
      var after := RemoveTokens(db, ids, now);
      j in after.jobs && Aimed(after, j, after.jobs[j]) && Paced(after.jobs[j])
  {
    assert Aimed(db, j, db.jobs[j]) && Paced(db.jobs[j]);
  }

  lemma RemovalUndisturbs(db: Database, ids: set<TokenId>, now: Time, j: JobId)
    requires j in db.jobs && Paced(db.jobs[j])
    ensures
      var u, v := db.jobs[j], RemoveTokens(db, ids, now).jobs[j];
      && v.sendAttempts == u.sendAttempts && v.receiptAttempts == u.receiptAttempts
      && (OpenStatus(v.status) ==> v == u)
  {}

  lemma RemovalIsSafe(db: Database, ids: set<TokenId>, now: Time)
    requires DbOk(db)
    ensures DbOk(RemoveTokens(db, ids, now)) && Undisturbed(db, RemoveTokens(db, ids, now))
  {
    var after := RemoveTokens(db, ids, now);
    forall j | j in after.jobs
      ensures Aimed(after, j, after.jobs[j]) && Paced(after.jobs[j])
      ensures after.jobs[j].sendAttempts == db.jobs[j].sendAttempts
      ensures after.jobs[j].receiptAttempts == db.jobs[j].receiptAttempts
      ensures OpenStatus(after.jobs[j].status) ==> after.jobs[j] == db.jobs[j]
    {
      RemovedJob(db, ids, now, j);
      RemovalUndisturbs(db, ids, now, j);
    }
  }

  function Rotated(db: Database, id: TokenId, token: Token, now: Time): Database {
    RetargetJobs(db, id, token.value, now).(tokens := db.tokens[id := token])
  }

  lemma RotatedJob(db: Database, id: TokenId, token: Token, now: Time, j: JobId)
    requires DbOk(db) && id in db.tokens && IsDeviceToken(db.tokens[id], token.user, token.device) && j in db.jobs
    ensures
      var after := Rotated(db, id, token, now);
      j in after.jobs && Aimed(after, j, after.jobs[j]) && Paced(after.jobs[j])
  {
    assert Aimed(db, j, db.jobs[j]) && Paced(db.jobs[j]);
  }

  lemma RotationIsSafe(db: Database, id: TokenId, token: Token, now: Time)
    requires DbOk(db) && id in db.tokens && IsDeviceToken(db.tokens[id], token.user, token.device)
    requires forall t :: t in db.tokens ==> db.tokens[t].value != token.value
    ensures DbOk(Rotated(db, id, token, now)) && Undisturbed(db, Rotated(db, id, token, now))
  {
    var after := Rotated(db, id, token, now);
    forall j | j in after.jobs
      ensures Aimed(after, j, after.jobs[j]) && Paced(after.jobs[j])
    {
      RotatedJob(db, id, token, now, j);
    }
  }

  lemma TokenUpdateIsSafe(db: Database, id: TokenId, token: Token)
    requires DbOk(db)
    requires id in db.tokens ==>
      db.tokens[id].value == token.value && IsDeviceToken(db.tokens[id], token.user, token.device)
    requires id !in db.tokens ==> forall t :: t in db.tokens ==> !Clashes(db.tokens[t], token)
    ensures
      var after := db.(tokens := db.tokens[id := token]);
      DbOk(after) && Undisturbed(db, after)
  {
    var after := db.(tokens := db.tokens[id := token]);
    forall j | j in after.jobs
      ensures Aimed(after, j, after.jobs[j])
    {
      assert Aimed(db, j, db.jobs[j]);
    }
  }

  lemma RegistrationIsSafe(
      db: Database, user: UserId, device: DeviceId, value: string, platform: string, newId: TokenId, now: Time)
    requires DbOk(db) && newId !in db.tokens
    ensures
      var (done, after) := Registered(db, user, device, value, platform, newId, now);
      && DbOk(after) && Undisturbed(db, after)
      && after.tokens.Keys <= db.tokens.Keys + {newId}
      && after.notifications == db.notifications
      && (done ==> exists t :: t in after.tokens && after.tokens[t] == Token(user, device, value, platform))
  {
    var own, requested := DeviceToken(db, user, device), ValueToken(db, value);
    var token := Token(user, device, value, platform);
    var (done, after) := Registered(db, user, device, value, platform, newId, now);
    if requested.Some? && db.tokens[requested.value].device != device {
    } else if own.Some? && db.tokens[own.value].value == value {
      TokenUpdateIsSafe(db, own.value, token);
      assert after.tokens[own.value] == token;
    } else {
      var freed := if requested.Some? then RemoveTokens(db, {requested.value}, now) else db;
      if requested.Some? {
        RemovalIsSafe(db, {requested.value}, now);
      }
      if own.Some? {
        RotationIsSafe(freed, own.value, token, now);
        assert after == Rotated(freed, own.value, token, now);
        assert after.tokens[own.value] == token;
      } else {
        TokenUpdateIsSafe(freed, newId, token);
        assert after.tokens[newId] == token;
      }
    }
  }

  lemma InvalidationIsRemoval(db: Database, token: TokenId, current: JobId, now: Time)
    requires current in db.jobs ==> !OpenStatus(db.jobs[current].status)
    ensures Invalidated(db, Some(token), current, now) == RemoveTokens(db, {token}, now)
  {}

  // ------------------------------------------------------------------ fences

  function Counter(job: Job, receipt: bool): nat {
    if receipt then job.receiptAttempts else job.sendAttempts
  }

  predicate HandoutOk(s: System, a: Attempt, h: Handout) {
    && a.id.notification in s.issuedNotifications
    && a.number == Counter(h.row, a.receipt) >= 1
    && (a.id in s.db.jobs ==> a.number <= Counter(s.db.jobs[a.id], a.receipt))
    && (Fence(s, a) ==> s.db.jobs[a.id] == h.row)
  }

  ghost predicate HandoutsOk(s: System) { forall a :: a in s.handouts ==> HandoutOk(s, a, s.handouts[a]) }

  ghost predicate Issued(s: System) {
    s.db.notifications.Keys <= s.issuedNotifications && s.db.tokens.Keys <= s.issuedTokens
  }

  ghost predicate Inv(s: System) { DbOk(s.db) && Issued(s) && HandoutsOk(s) }

  lemma UndisturbedKeepsHandouts(s: System, t: System)
    requires HandoutsOk(s) && Undisturbed(s.db, t.db)
    requires t.handouts == s.handouts && s.issuedNotifications <= t.issuedNotifications
    ensures HandoutsOk(t)
  {
    forall a | a in t.handouts
      ensures HandoutOk(t, a, t.handouts[a])
    {
      assert HandoutOk(s, a, s.handouts[a]);
    }
  }

  lemma NotifyKeepsDb(s: System, e: Event, j: JobId)
    requires Inv(s) && e.Notify? && j in Step(s, e).db.jobs
    ensures
      var db := Step(s, e).db;
      Aimed(db, j, db.jobs[j]) && Paced(db.jobs[j]) && j.notification in db.notifications
  {
    assert j in s.db.jobs ==> Aimed(s.db, j, s.db.jobs[j]) && Paced(s.db.jobs[j]);
  }

  lemma NotifyKeepsHandouts(s: System, e: Event, a: Attempt)
    requires Inv(s) && e.Notify? && a in s.handouts
    ensures HandoutOk(Step(s, e), a, s.handouts[a])
  {
    assert HandoutOk(s, a, s.handouts[a]);
  }

  lemma NotifyKeepsInv(s: System, e: Event)
    requires Inv(s) && e.Notify?
    ensures Inv(Step(s, e))
  {
    var t := Step(s, e);
    forall j | j in t.db.jobs
      ensures Aimed(t.db, j, t.db.jobs[j]) && Paced(t.db.jobs[j]) && j.notification in t.db.notifications
    {
      NotifyKeepsDb(s, e, j);
    }
    forall a | a in t.handouts
      ensures HandoutOk(t, a, t.handouts[a])
    {
      NotifyKeepsHandouts(s, e, a);
    }
  }

  /** Token changes and scheduled deletions leave the jobs that stay open alone. */
  lemma TokenEventIsSafe(s: System, e: Event)
    requires Inv(s) && (e.Register? || e.Unregister? || e.ScheduleDeletion?)
    ensures DbOk(Step(s, e).db) && Undisturbed(s.db, Step(s, e).db) && Issued(Step(s, e))
  {
    if e.Register? {
      if e.newId !in s.issuedTokens {
        RegistrationIsSafe(s.db, e.user, e.device, e.value, e.platform, e.newId, e.now);
      }
    } else if e.Unregister? {
      var rows := set t | t in s.db.tokens && s.db.tokens[t].device == e.device;
      RemovalIsSafe(s.db, (set t | t in rows && t in s.db.tokens && s.db.tokens[t].user == e.user), e.now);
    } else {
      RemovalIsSafe(s.db, TokensOf(s.db, e.user), e.now);
    }
  }

  lemma TokenEventKeepsInv(s: System, e: Event)
    requires Inv(s) && (e.Register? || e.Unregister? || e.ScheduleDeletion?)
    ensures Inv(Step(s, e))
  {
    TokenEventIsSafe(s, e);
    UndisturbedKeepsHandouts(s, Step(s, e));
  }

  lemma AnonymizedJob(db: Database, user: UserId, j: JobId)
    requires DbOk(db) && j in AccountAnonymized(db, user).jobs
    ensures
      var after := AccountAnonymized(db, user);
      && j in db.jobs && Aimed(after, j, after.jobs[j]) && Paced(after.jobs[j]) && j.notification in after.notifications
      && (after.jobs[j] == db.jobs[j] || (after.jobs[j] == db.jobs[j].(pushToken := None) && !OpenStatus(db.jobs[j].status)))
  {
    assert Aimed(db, j, db.jobs[j]) && Paced(db.jobs[j]);
  }

  lemma AnonymizeKeepsInv(s: System, e: Event)
    requires Inv(s) && e.AnonymizeAccount?
    ensures Inv(Step(s, e))
  {
    var t := Step(s, e);
    forall j | j in t.db.jobs
      ensures Aimed(t.db, j, t.db.jobs[j]) && Paced(t.db.jobs[j]) && j.notification in t.db.notifications
      ensures j in s.db.jobs
      ensures t.db.jobs[j] == s.db.jobs[j]
              || (t.db.jobs[j] == s.db.jobs[j].(pushToken := None) && !OpenStatus(s.db.jobs[j].status))
    {
      AnonymizedJob(s.db, e.user, j);
    }
    UndisturbedKeepsHandouts(s, t);
  }

  lemma ClaimKeepsDb(s: System, e: Event)
    requires Inv(s) && (e.ClaimSend? || e.ClaimReceipt?)
    ensures DbOk(Step(s, e).db) && Issued(Step(s, e))
  {
    assert e.job in s.db.jobs ==> Aimed(s.db, e.job, s.db.jobs[e.job]) && Paced(s.db.jobs[e.job]);
  }

  lemma ClaimKeepsHandouts(s: System, e: Event, a: Attempt)
    requires Inv(s) && (e.ClaimSend? || e.ClaimReceipt?) && a in Step(s, e).handouts
    ensures HandoutOk(Step(s, e), a, Step(s, e).handouts[a])
  {
    assert a in s.handouts ==> HandoutOk(s, a, s.handouts[a]);
  }

  lemma ClaimKeepsInv(s: System, e: Event)
    requires Inv(s) && (e.ClaimSend? || e.ClaimReceipt?)
    ensures Inv(Step(s, e))
  {
    ClaimKeepsDb(s, e);
    forall a | a in Step(s, e).handouts
      ensures HandoutOk(Step(s, e), a, Step(s, e).handouts[a])
    {
      ClaimKeepsHandouts(s, e, a);
    }
  }

  /** A job in flight moves on to a row that no attempt so far has claimed. */
  ghost predicate Resolves(s: System, a: Attempt, row: Job) {
    && Fence(s, a)
    && Paced(row)
    && row.status != Sending && row.status != ReceiptChecking
    && row == s.db.jobs[a.id].(status := row.status, ticket := row.ticket, nextAttemptAt := row.nextAttemptAt,
                               receiptAvailableAt := row.receiptAvailableAt, lease := row.lease,
                               completedAt := row.completedAt)
  }

  lemma ResolutionIsSafe(s: System, a: Attempt, row: Job, log: seq<Entry>)
    requires Inv(s) && Resolves(s, a, row)
    ensures Inv(s.(db := s.db.(jobs := s.db.jobs[a.id := row]), log := log))
  {
    var t := s.(db := s.db.(jobs := s.db.jobs[a.id := row]), log := log);
    assert Aimed(s.db, a.id, s.db.jobs[a.id]);
    forall j | j in t.db.jobs
      ensures Aimed(t.db, j, t.db.jobs[j]) && Paced(t.db.jobs[j])
    {
      assert Aimed(s.db, j, s.db.jobs[j]) && Paced(s.db.jobs[j]);
    }
    forall b | b in t.handouts
      ensures HandoutOk(t, b, t.handouts[b])
    {
      assert HandoutOk(s, b, s.handouts[b]);
    }
  }

  lemma SendResolves(s: System, a: Attempt, answer: Option<Answer>)
    requires Inv(s) && a in s.handouts && !a.receipt && Fence(s, a)
    ensures
      Resolves(s, a, SentJob(s.db.jobs[a.id], SendOutcome(s.handouts[a], a, answer).kind, s.handouts[a].now))
  {
    assert HandoutOk(s, a, s.handouts[a]) && Paced(s.db.jobs[a.id]);
  }

  lemma CheckResolves(s: System, a: Attempt, answer: Option<Answer>)
    requires Inv(s) && a in s.handouts && a.receipt && Fence(s, a)
    ensures
      Resolves(s, a, CheckedJob(s.db.jobs[a.id], ReceiptOutcome(s.handouts[a], a, answer).kind, s.handouts[a].now))
  {
    assert HandoutOk(s, a, s.handouts[a]) && Paced(s.db.jobs[a.id]);
  }

  lemma InvalidatedKeepsInv(s: System, token: Option<TokenId>, current: JobId, now: Time)
    requires Inv(s) && (current in s.db.jobs ==> token.None? || !OpenStatus(s.db.jobs[current].status))
    ensures Inv(s.(db := Invalidated(s.db, token, current, now)))
  {
    if token.Some? {
      InvalidationIsRemoval(s.db, token.value, current, now);
      RemovalIsSafe(s.db, {token.value}, now);
      UndisturbedKeepsHandouts(s, s.(db := Invalidated(s.db, token, current, now)));
    }
  }

  lemma FinishSendKeepsInv(s: System, e: Event)
    requires Inv(s) && e.FinishSend?
    ensures Inv(Step(s, e))
  {
    var a := e.attempt;
    if a in s.handouts && !a.receipt && Fence(s, a) {
      var r := SendOutcome(s.handouts[a], a, e.answer);
      var row := SentJob(s.db.jobs[a.id], r.kind, s.handouts[a].now);
      SendResolves(s, a, e.answer);
      ResolutionIsSafe(s, a, row, Record(s, a));
      InvalidatedKeepsInv(
        s.(db := s.db.(jobs := s.db.jobs[a.id := row]), log := Record(s, a)),
        if r.kind.SendPermanent? then r.kind.invalidate else None, a.id, s.handouts[a].now);
    }
  }

  lemma FinishReceiptKeepsInv(s: System, e: Event)
    requires Inv(s) && e.FinishReceipt?
    ensures Inv(Step(s, e))
  {
    var a := e.attempt;
    if a in s.handouts && a.receipt && Fence(s, a) {
      var r := ReceiptOutcome(s.handouts[a], a, e.answer);
      var row := CheckedJob(s.db.jobs[a.id], r.kind, s.handouts[a].now);
      CheckResolves(s, a, e.answer);
      ResolutionIsSafe(s, a, row, Record(s, a));
      InvalidatedKeepsInv(
        s.(db := s.db.(jobs := s.db.jobs[a.id := row]), log := Record(s, a)),
        if r.kind.ReceiptPermanent? then r.kind.invalidate else None, a.id, s.handouts[a].now);
    }
  }

  lemma StepKeepsInv(s: System, e: Event)
    requires Inv(s)
    ensures Inv(Step(s, e))
  {
    match e
    case Notify(_, _, _, _) => NotifyKeepsInv(s, e);
    case Register(_, _, _, _, _, _) => TokenEventKeepsInv(s, e);
    case Unregister(_, _, _) => TokenEventKeepsInv(s, e);
    case ScheduleDeletion(_, _) => TokenEventKeepsInv(s, e);
    case AnonymizeAccount(_) => AnonymizeKeepsInv(s, e);
    case ClaimSend(_, _) => ClaimKeepsInv(s, e);
    case ClaimReceipt(_, _) => ClaimKeepsInv(s, e);
    case FinishSend(_, _) => FinishSendKeepsInv(s, e);
    case FinishReceipt(_, _) => FinishReceiptKeepsInv(s, e);
  }

  lemma {:induction false} RunKeepsInv(s: System, es: seq<Event>)
    requires Inv(s)
    ensures Inv(Run(s, es))
    decreases |es|
  {
    if es != [] {
      StepKeepsInv(s, es[0]);
      RunKeepsInv(Step(s, es[0]), es[1..]);
    }
  }

  // ------------------------------------------------------------ main results

  /** In every interleaving: token values and devices stay unique, every open job is aimed at the right
      token of the right recipient, a queued job has sends left, and a job waiting for its receipt has a
      ticket and checks left. */
  lemma OpenJobsAreAimed(es: seq<Event>)
    ensures
      var db := Run(EMPTY_SYSTEM, es).db;
      && TokensUnique(db.tokens)
      && (forall j :: j in db.jobs ==> Aimed(db, j, db.jobs[j]) && Paced(db.jobs[j]))
  {
    RunKeepsInv(EMPTY_SYSTEM, es);
  }

  /** A permanent failure that invalidates a token removes the one whose value was sent, if it is there. */
  lemma InvalidationHitsTheSentToken(s: System, a: Attempt, token: TokenId)
    requires Inv(s) && a in s.handouts && Fence(s, a)
    requires s.handouts[a].row.pushToken == Some(token)
    ensures token in s.db.tokens && s.db.tokens[token].value == s.handouts[a].row.snapshot
    ensures s.db.tokens[token].user == s.db.notifications[a.id.notification]
  {
    assert HandoutOk(s, a, s.handouts[a]) && Aimed(s.db, a.id, s.db.jobs[a.id]);
  }

  predicate ClaimsAttempt(s: System, e: Event, a: Attempt) {
    && (e.ClaimSend? || e.ClaimReceipt?) && a.receipt == e.ClaimReceipt? && e.job == a.id
    && a.id in s.db.jobs && a.number == Counter(s.db.jobs[a.id], a.receipt) + 1
  }

  predicate Finishes(e: Event, a: Attempt) {
    if a.receipt then e.FinishReceipt? && e.attempt == a else e.FinishSend? && e.attempt == a
  }

  lemma QuietFence(s: System, e: Event, a: Attempt)
    requires Inv(s) && Fence(Step(s, e), a)
    requires e.Notify? || e.AnonymizeAccount?
    ensures Fence(s, a)
  {}

  lemma ClaimFence(s: System, e: Event, a: Attempt)
    requires Inv(s) && Fence(Step(s, e), a)
    requires e.ClaimSend? || e.ClaimReceipt?
    ensures Fence(s, a) || ClaimsAttempt(s, e, a)
  {}

  /** A result that is let in ends the attempt, and leaves every other job alone. */
  ghost predicate EndsAttempt(s: System, t: System, a: Attempt) {
    && t.db.jobs.Keys == s.db.jobs.Keys && a.id in s.db.jobs
    && t.db.jobs[a.id].status != Sending && t.db.jobs[a.id].status != ReceiptChecking
    && (forall j :: j in s.db.jobs && j != a.id ==> LeftAlone(s.db.jobs[j], t.db.jobs[j]))
  }

  lemma SendLeaves(s: System, a: Attempt, answer: Option<Answer>)
    requires a in s.handouts && !a.receipt && Fence(s, a)
    ensures EndsAttempt(s, Step(s, FinishSend(a, answer)), a)
  {
    var h := s.handouts[a];
    var r := SendOutcome(h, a, answer);
    var updated := s.db.(jobs := s.db.jobs[a.id := SentJob(s.db.jobs[a.id], r.kind, h.now)]);
    InvalidatedLeaves(updated, if r.kind.SendPermanent? then r.kind.invalidate else None, a.id, h.now);
  }

  lemma CheckLeaves(s: System, a: Attempt, answer: Option<Answer>)
    requires a in s.handouts && a.receipt && Fence(s, a)
    ensures EndsAttempt(s, Step(s, FinishReceipt(a, answer)), a)
  {
    var h := s.handouts[a];
    var r := ReceiptOutcome(h, a, answer);
    var updated := s.db.(jobs := s.db.jobs[a.id := CheckedJob(s.db.jobs[a.id], r.kind, h.now)]);
    InvalidatedLeaves(updated, if r.kind.ReceiptPermanent? then r.kind.invalidate else None, a.id, h.now);
  }

  lemma FinishLeaves(s: System, e: Event)
    requires e.FinishSend? || e.FinishReceipt?
    ensures Step(s, e) == s || (Fence(s, e.attempt) && EndsAttempt(s, Step(s, e), e.attempt))
    ensures e.attempt in s.handouts && Finishes(e, e.attempt) && Fence(s, e.attempt) ==> EndsAttempt(s, Step(s, e), e.attempt)
  {
    if e.attempt in s.handouts && Fence(s, e.attempt) && Finishes(e, e.attempt) {
      if e.FinishSend? {
        SendLeaves(s, e.attempt, e.answer);
      } else {
        CheckLeaves(s, e.attempt, e.answer);
      }
    }
  }

  /** A send result leaves a job to be sent again, to be checked, or finished; a receipt result to be checked
      again or finished. */
  lemma FinishedStatus(s: System, e: Event)
    requires (e.FinishSend? || e.FinishReceipt?) && Fence(s, e.attempt) && Step(s, e) != s
    ensures e.attempt.id in Step(s, e).db.jobs
    ensures Step(s, e).db.jobs[e.attempt.id].status == Queued ==> !e.attempt.receipt
  {}

  lemma FinishFence(s: System, e: Event, a: Attempt)
    requires Fence(Step(s, e), a) && (e.FinishSend? || e.FinishReceipt?)
    ensures Fence(s, a) && (a in s.handouts ==> !Finishes(e, a))
  {
    FinishLeaves(s, e);
    if Step(s, e) != s {
      assert a.id in s.db.jobs && a.id != e.attempt.id;
    }
  }

  /** A fence is only ever raised by the claim that hands the attempt out, and its result lowers it. */
  lemma FenceOrigin(s: System, e: Event, a: Attempt)
    requires Inv(s) && Fence(Step(s, e), a)
    ensures Fence(s, a) || ClaimsAttempt(s, e, a)
    ensures a in s.handouts ==> !Finishes(e, a)
  {
    if e.ClaimSend? || e.ClaimReceipt? {
      ClaimFence(s, e, a);
    } else if e.FinishSend? || e.FinishReceipt? {
      FinishFence(s, e, a);
    } else if e.Register? || e.Unregister? || e.ScheduleDeletion? {
      TokenEventIsSafe(s, e);
    } else {
      QuietFence(s, e, a);
    }
  }

  ghost predicate NoRepeats<T>(log: seq<T>) { forall i, j :: 0 <= i < j < |log| ==> log[i] != log[j] }

  ghost predicate LogOk(s: System) {
    && NoRepeats(s.log)
    && (forall entry :: entry in s.log ==> entry.attempt in s.handouts)
    && (forall entry :: entry in s.log && entry.Recorded? ==> !Fence(s, entry.attempt))
  }

  /** A claim hands out an attempt that was never handed out before. */
  lemma ClaimIsFresh(s: System, e: Event, a: Attempt)
    requires Inv(s) && ClaimsAttempt(s, e, a)
    ensures a !in s.handouts
  {
    assert a in s.handouts ==> HandoutOk(s, a, s.handouts[a]);
  }

  lemma StepKeepsHistory(s: System, e: Event)
    ensures s.handouts.Keys <= Step(s, e).handouts.Keys && s.log <= Step(s, e).log
  {}

  /** A step logs at most one entry, which is new, of an attempt that has been handed out. */
  lemma LogStep(s: System, e: Event)
    requires Inv(s) && LogOk(s)
    ensures
      var t := Step(s, e);
      || t.log == s.log
      || (t.log == s.log + [t.log[|s.log|]] && t.log[|s.log|] !in s.log && t.log[|s.log|].attempt in t.handouts)
  {
    if e.ClaimSend? && e.job in s.db.jobs {
      ClaimIsFresh(s, e, Attempt(e.job, false, s.db.jobs[e.job].sendAttempts + 1));
    } else if e.ClaimReceipt? && e.job in s.db.jobs {
      ClaimIsFresh(s, e, Attempt(e.job, true, s.db.jobs[e.job].receiptAttempts + 1));
    }
  }

  /** An attempt that is recorded is shut out from then on. */
  lemma RecordedIsShutOut(s: System, e: Event, a: Attempt)
    requires Inv(s) && LogOk(s) && Recorded(a) in Step(s, e).log
    ensures !Fence(Step(s, e), a)
  {
    if Fence(Step(s, e), a) {
      FenceOrigin(s, e, a);
    }
    RecordOrigin(s, e, a);
  }

  lemma RecordOrigin(s: System, e: Event, a: Attempt)
    requires Recorded(a) in Step(s, e).log
    ensures Recorded(a) in s.log || (a in s.handouts && Finishes(e, a))
  {}

  lemma StepKeepsLog(s: System, e: Event)
    requires Inv(s) && LogOk(s)
    ensures LogOk(Step(s, e))
  {
    var t := Step(s, e);
    LogStep(s, e);
    StepKeepsHistory(s, e);
    forall entry | entry in t.log && entry.Recorded?
      ensures !Fence(t, entry.attempt)
    {
      RecordedIsShutOut(s, e, entry.attempt);
    }
  }

  lemma {:induction false} RunKeepsLog(s: System, es: seq<Event>)
    requires Inv(s) && LogOk(s)
    ensures LogOk(Run(s, es))
    decreases |es|
  {
    if es != [] {
      StepKeepsInv(s, es[0]);
      StepKeepsLog(s, es[0]);
      RunKeepsLog(Step(s, es[0]), es[1..]);
    }
  }

  /** No attempt is handed out twice, and no attempt has two accepted results. */
  lemma AttemptsAreHandledOnce(es: seq<Event>)
    ensures NoRepeats(Run(EMPTY_SYSTEM, es).log)
  {
    RunKeepsLog(EMPTY_SYSTEM, es);
  }

  lemma LostResultChangesNothing(s: System, a: Attempt, answer: Option<Answer>)
    requires !Fence(s, a)
    ensures Step(s, FinishSend(a, answer)) == s && Step(s, FinishReceipt(a, answer)) == s
  {}

  /** A worker whose attempt was overtaken, cancelled or already recorded never regains the fence, and
      without the fence its result changes nothing. */
  lemma {:induction false} LostFenceStaysLost(s: System, es: seq<Event>, a: Attempt, answer: Option<Answer>)
    requires Inv(s) && a in s.handouts && !Fence(s, a)
    ensures
      var t := Run(s, es);
      !Fence(t, a) && Step(t, FinishSend(a, answer)) == t && Step(t, FinishReceipt(a, answer)) == t
    decreases |es|
  {
    if es == [] {
      LostResultChangesNothing(s, a, answer);
    } else {
      StepKeepsInv(s, es[0]);
      StepKeepsHistory(s, es[0]);
      if Fence(Step(s, es[0]), a) {
        FenceOrigin(s, es[0], a);
        ClaimIsFresh(s, es[0], a);
      }
      LostFenceStaysLost(Step(s, es[0]), es[1..], a, answer);
    }
  }

  /** What may still happen to a finished job: its token goes, or its notification takes it along. */
  ghost predicate Settled(before: Job, after: System, j: JobId) {
    j in after.db.jobs ==>
      after.db.jobs[j] == before || after.db.jobs[j] == before.(pushToken := None)
  }

  /** What happens to a finished job in a step. */
  ghost predicate StaysFinished(s: System, t: System, j: JobId) {
    j in t.db.jobs ==> j in s.db.jobs && Settled(s.db.jobs[j], t, j)
  }

  lemma FinishedJobResult(s: System, e: Event, j: JobId)
    requires e.FinishSend? || e.FinishReceipt?
    requires j in s.db.jobs ==> !OpenStatus(s.db.jobs[j].status)
    ensures StaysFinished(s, Step(s, e), j)
  {
    FinishLeaves(s, e);
  }

  lemma FinishedJobRemoval(s: System, e: Event, j: JobId)
    requires e.Unregister? || e.ScheduleDeletion? || e.AnonymizeAccount?
    requires j in s.db.jobs ==> !OpenStatus(s.db.jobs[j].status)
    ensures StaysFinished(s, Step(s, e), j)
  {}

  lemma FinishedJobRegistration(s: System, e: Event, j: JobId)
    requires e.Register?
    requires j in s.db.jobs ==> !OpenStatus(s.db.jobs[j].status)
    ensures StaysFinished(s, Step(s, e), j)
  {}

  lemma FinishedJobStep(s: System, e: Event, j: JobId)
    requires Inv(s) && j.notification in s.issuedNotifications
    requires j in s.db.jobs ==> !OpenStatus(s.db.jobs[j].status)
    ensures StaysFinished(s, Step(s, e), j)
  {
    if e.FinishSend? || e.FinishReceipt? {
      FinishedJobResult(s, e, j);
    } else if e.Unregister? || e.ScheduleDeletion? || e.AnonymizeAccount? {
      FinishedJobRemoval(s, e, j);
    } else if e.Register? {
      FinishedJobRegistration(s, e, j);
    }
  }

  /** Delivered, failed, exhausted and cancelled are absorbing under every operation. */
  lemma {:induction false} FinishedIsAbsorbing(s: System, es: seq<Event>, j: JobId)
    requires Inv(s) && j in s.db.jobs && !OpenStatus(s.db.jobs[j].status)
    ensures Settled(s.db.jobs[j], Run(s, es), j)
  {
    RunKeepsFinished(s, es, j, s.db.jobs[j]);
  }

  lemma {:induction false} RunKeepsFinished(s: System, es: seq<Event>, j: JobId, job: Job)
    requires Inv(s) && j.notification in s.issuedNotifications && !OpenStatus(job.status) && Settled(job, s, j)
    ensures Settled(job, Run(s, es), j)
    decreases |es|
  {
    if es != [] {
      StepKeepsInv(s, es[0]);
      FinishedJobStep(s, es[0], j);
      RunKeepsFinished(Step(s, es[0]), es[1..], j, job);
    }
  }

  // ------------------------------------------------------------- what answers decide

  /** Only a revoked token goes, and its other open jobs are cancelled; all other jobs stand. */
  ghost predicate OnlyTokenGoes(s: System, t: System, id: JobId, revoked: bool) {
    && t.db.notifications == s.db.notifications
    && t.db.tokens == s.db.tokens - (if revoked then {id.token} else {})
    && t.db.jobs.Keys == s.db.jobs.Keys
    && (forall j :: j in s.db.jobs && j != id ==>
          var u, v := s.db.jobs[j], t.db.jobs[j];
          if revoked && u.pushToken == Some(id.token)
          then v.pushToken.None? && v.status == (if OpenStatus(u.status) then Cancelled else u.status)
          else v == u)
  }

  /** The row of a fenced attempt is the one the worker was handed, and its token is the job's. */
  lemma FencedRow(s: System, a: Attempt)
    requires Inv(s) && a in s.handouts && Fence(s, a)
    ensures s.handouts[a].row == s.db.jobs[a.id] && s.db.jobs[a.id].pushToken == Some(a.id.token)
    ensures a.receipt ==> s.db.jobs[a.id].ticket.Some?
    ensures a.number == Counter(s.db.jobs[a.id], a.receipt)
  {
    assert HandoutOk(s, a, s.handouts[a]);
    assert Aimed(s.db, a.id, s.db.jobs[a.id]) && Paced(s.db.jobs[a.id]);
  }

  lemma FencedSend(s: System, a: Attempt, answer: Option<Answer>)
    requires Inv(s) && a in s.handouts && !a.receipt && Fence(s, a)
    ensures
      var row, now := s.db.jobs[a.id], s.handouts[a].now;
      AnswerTaken(s.db, Step(s, FinishSend(a, answer)).db, a.id, AfterSend(row, answer, now),
                  if Revokes(answer) then {a.id.token} else {}, now)
  {
    FencedRow(s, a);
    SendSettles(s.db, a.id, answer, s.handouts[a].now);
  }

  lemma FencedCheck(s: System, a: Attempt, answer: Option<Answer>)
    requires Inv(s) && a in s.handouts && a.receipt && Fence(s, a)
    ensures
      var row, now := s.db.jobs[a.id], s.handouts[a].now;
      AnswerTaken(s.db, Step(s, FinishReceipt(a, answer)).db, a.id, AfterCheck(row, answer, now),
                  if Revokes(answer) then {a.id.token} else {}, now)
  {
    FencedRow(s, a);
    CheckSettles(s.db, a.id, answer, s.handouts[a].now);
  }

  lemma TakenTouchesOnlyToken(s: System, t: System, id: JobId, settled: Job, revoked: bool, now: Time)
    requires AnswerTaken(s.db, t.db, id, settled, if revoked then {id.token} else {}, now)
    requires revoked ==> !OpenStatus(settled.status)
    ensures OnlyTokenGoes(s, t, id, revoked)
    ensures id in s.db.jobs ==>
      t.db.jobs[id].status == settled.status && t.db.jobs[id].ticket == settled.ticket
      && t.db.jobs[id].receiptAvailableAt == settled.receiptAvailableAt
      && t.db.jobs[id].nextAttemptAt == settled.nextAttemptAt
  {}

  lemma SendStatuses(row: Job, answer: Option<Answer>, now: Time)
    ensures
      var job := AfterSend(row, answer, now);
      && (job.status == ReceiptPending <==> answer.Some? && answer.value.Ok?)
      && (job.status == Queued <==> Transient(answer) && row.sendAttempts < 5)
      && (job.status == Exhausted <==> Transient(answer) && 5 <= row.sendAttempts)
      && (Revokes(answer) ==> job.status == FailedPermanent)
      && job.status in {ReceiptPending, Queued, Exhausted, FailedPermanent}
  {}

  /** The answer to an accepted send attempt decides its job: an ok ticket waits a quarter of an hour for its
      receipt; no answer and the two transient errors send it again later, up to the fifth attempt; any other
      error is final. The token goes exactly with DeviceNotRegistered. */
  lemma SendAnswerDecides(s: System, a: Attempt, answer: Option<Answer>)
    requires Inv(s) && a in s.handouts && !a.receipt && Fence(s, a)
    ensures
      var t, now := Step(s, FinishSend(a, answer)), s.handouts[a].now;
      var ok := answer.Some? && answer.value.Ok?;
      var again := answer.None? || answer.value == Rejected(Some("MessageRateExceeded"))
                   || answer.value == Rejected(Some("ProviderError"));
      && OnlyTokenGoes(s, t, a.id, answer == Some(Rejected(Some("DeviceNotRegistered"))))
      && var job := t.db.jobs[a.id];
         && (job.status == ReceiptPending <==> ok)
         && (ok ==> job.ticket == Some(answer.value.ticket) && job.receiptAvailableAt == Some(now + 15 * MINUTE_MS))
         && (job.status == Queued <==> again && a.number < 5)
         && (job.status == Queued ==> now < job.nextAttemptAt)
         && (job.status == Exhausted <==> again && 5 <= a.number)
         && (job.status == FailedPermanent <==> !ok && !again)
  {
    FencedRow(s, a);
    FencedSend(s, a, answer);
    SendStatuses(s.db.jobs[a.id], answer, s.handouts[a].now);
    TakenTouchesOnlyToken(
      s, Step(s, FinishSend(a, answer)), a.id, AfterSend(s.db.jobs[a.id], answer, s.handouts[a].now), Revokes(answer),
      s.handouts[a].now);
    BackoffBounds(a.number, a.number);
  }

  /** The answer to an accepted receipt check decides its job: a good receipt delivers it, a missing one is
      asked for again later, up to the eighth check, and an error is final. The token goes exactly with
      DeviceNotRegistered. */
  lemma ReceiptAnswerDecides(s: System, a: Attempt, answer: Option<Answer>)
    requires Inv(s) && a in s.handouts && a.receipt && Fence(s, a)
    ensures
      var t, now := Step(s, FinishReceipt(a, answer)), s.handouts[a].now;
      && OnlyTokenGoes(s, t, a.id, answer == Some(Rejected(Some("DeviceNotRegistered"))))
      && var job := t.db.jobs[a.id];
         && (job.status == Delivered <==> answer.Some? && answer.value.Ok?)
         && (job.status == ReceiptPending <==> answer.None? && a.number < 8)
         && (job.status == ReceiptPending ==> now < job.nextAttemptAt)
         && (job.status == Exhausted <==> answer.None? && 8 <= a.number)
         && (job.status == FailedPermanent <==> answer.Some? && answer.value.Rejected?)
  {
    FencedRow(s, a);
    FencedCheck(s, a, answer);
    TakenTouchesOnlyToken(
      s, Step(s, FinishReceipt(a, answer)), a.id, AfterCheck(s.db.jobs[a.id], answer, s.handouts[a].now), Revokes(answer),
      s.handouts[a].now);
    BackoffBounds(a.number, a.number);
  }

  /** In every reachable state a new notification leaves exactly one queued job for each of its recipient's
      tokens if push is enabled, and no job otherwise. */
  lemma NotifyReachesEveryToken(es: seq<Event>, id: NotificationId, user: UserId, enqueue: bool, now: Time)
    ensures
      var s := Run(EMPTY_SYSTEM, es);
      var t := Step(s, Notify(id, user, enqueue, now));
      id !in s.issuedNotifications ==>
        && (forall token :: JobId(id, token) in t.db.jobs <==>
              enqueue && token in s.db.tokens && s.db.tokens[token].user == user)
        && (forall token :: JobId(id, token) in t.db.jobs ==>
              var job := t.db.jobs[JobId(id, token)];
              job.status == Queued && job.nextAttemptAt == now && job.snapshot == s.db.tokens[token].value)
        && (forall j :: j in s.db.jobs ==> j in t.db.jobs && t.db.jobs[j] == s.db.jobs[j])
        && t.db.tokens == s.db.tokens
  {
    RunKeepsInv(EMPTY_SYSTEM, es);
    var s := Run(EMPTY_SYSTEM, es);
    if id !in s.issuedNotifications {
      NotifyAnswers(s.db, id, user, enqueue, now);
    }
  }
}
