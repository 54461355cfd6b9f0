/** Notifications, push tokens and the push outbox: what each repository transaction does to the three
    tables, and the repository whose methods apply those transactions in place. */
module PushTable {
  import opened Common
  import opened ClaimBatch

  type UserId = int
  type DeviceId = int
  type TokenId = int
  type NotificationId = int

  /** A job's identity: its notification and the token it was created for, unique together. */
  datatype JobId = JobId(notification: NotificationId, token: TokenId)

  datatype PushStatus =
    Queued | Sending | ReceiptPending | ReceiptChecking | Delivered | FailedPermanent | Exhausted | Cancelled

  datatype Job = Job(
    pushToken: Option<TokenId>,
    snapshot: string,
    status: PushStatus,
    ticket: Option<string>,
    sendAttempts: nat,
    receiptAttempts: nat,
    nextAttemptAt: Time,
    receiptAvailableAt: Option<Time>,
    lease: Option<Time>,
    createdAt: Time,
    completedAt: Option<Time>)

  datatype Token = Token(user: UserId, device: DeviceId, value: string, platform: string)

  /** `notifications` maps each notification to its recipient. */
  datatype Database = Database(
    notifications: map<NotificationId, UserId>, tokens: map<TokenId, Token>, jobs: map<JobId, Job>)

  predicate OpenStatus(status: PushStatus) {
    status == Queued || InFlight(status)
  }

  predicate InFlight(status: PushStatus) {
    status == Sending || status == ReceiptPending || status == ReceiptChecking
  }

  // ---------------------------------------------------- statements over jobs

  function CancelledJob(job: Job, now: Time): Job {
    job.(status := Cancelled, completedAt := Some(now), lease := None)
  }

  predicate OfTokens(job: Job, ids: set<TokenId>) { job.pushToken.Some? && job.pushToken.value in ids }

  /** Cancel the open jobs of the given tokens, except `spared`. */
  function CancelOpen(db: Database, ids: set<TokenId>, spared: set<JobId>, now: Time): Database {
    db.(jobs := map j | j in db.jobs ::
          if OfTokens(db.jobs[j], ids) && j !in spared && OpenStatus(db.jobs[j].status)
          then CancelledJob(db.jobs[j], now) else db.jobs[j])
  }

  /** Delete tokens; the foreign key of their jobs becomes null. */
  function DeleteTokens(db: Database, ids: set<TokenId>): Database {
    db.(tokens := db.tokens - ids,
        jobs := map j | j in db.jobs ::
          if OfTokens(db.jobs[j], ids) then db.jobs[j].(pushToken := None) else db.jobs[j])
  }

  function RemoveTokens(db: Database, ids: set<TokenId>, now: Time): Database {
    DeleteTokens(CancelOpen(db, ids, {}, now), ids)
  }

  function FollowedJob(job: Job, id: TokenId, value: string): Job {
    if job.pushToken == Some(id) && job.status == Queued then job.(snapshot := value) else job
  }

  function HaltedJob(job: Job, id: TokenId, now: Time): Job {
    if job.pushToken == Some(id) && InFlight(job.status) then CancelledJob(job, now) else job
  }

  /** Queued jobs of the rotated token follow it; jobs in flight were sent to the old value. */
  function RetargetJobs(db: Database, id: TokenId, value: string, now: Time): Database {
    db.(jobs := map j | j in db.jobs :: HaltedJob(FollowedJob(db.jobs[j], id, value), id, now))
  }

  // ------------------------------------------------------------ transactions

  function TokensOf(db: Database, user: UserId): set<TokenId> {
    set id | id in db.tokens && db.tokens[id].user == user
  }

  function NewJob(token: Token, id: TokenId, now: Time): Job {
    Job(Some(id), token.value, Queued, None, 0, 0, now, None, None, now, None)
  }

  function Created(db: Database, id: NotificationId, user: UserId, enqueue: bool, now: Time): Database {
    if id in db.notifications then db
    else
      var added := if enqueue then TokensOf(db, user) else {};
      Database(
        db.notifications[id := user],
        db.tokens,
        db.jobs + map t | t in added && t in db.tokens :: JobId(id, t) := NewJob(db.tokens[t], t, now))
  }

  /** The unique constraints of push_tokens: one row a token value, one row a user and device. */
  predicate TokensUnique(tokens: map<TokenId, Token>) {
    forall s, t :: s in tokens && t in tokens && Clashes(tokens[s], tokens[t]) ==> s == t
  }

  predicate Clashes(a: Token, b: Token) { a.value == b.value || (a.user == b.user && a.device == b.device) }

  predicate IsDeviceToken(t: Token, user: UserId, device: DeviceId) { t.user == user && t.device == device }

  function DeviceToken(db: Database, user: UserId, device: DeviceId): (found: Option<TokenId>)
    requires TokensUnique(db.tokens)
    ensures found.Some? ==> found.value in db.tokens && IsDeviceToken(db.tokens[found.value], user, device)
    ensures found.None? ==> forall t :: t in db.tokens ==> !IsDeviceToken(db.tokens[t], user, device)
  {
    if exists t :: t in db.tokens && IsDeviceToken(db.tokens[t], user, device)
    then var t :| t in db.tokens && IsDeviceToken(db.tokens[t], user, device); Some(t)
    else None
  }

  function ValueToken(db: Database, value: string): (found: Option<TokenId>)
    requires TokensUnique(db.tokens)
    ensures found.Some? ==> found.value in db.tokens && db.tokens[found.value].value == value
    ensures found.None? ==> forall t :: t in db.tokens ==> db.tokens[t].value != value
  {
    if exists t :: t in db.tokens && db.tokens[t].value == value
    then var t :| t in db.tokens && db.tokens[t].value == value; Some(t)
    else None
  }

  /** Registration: refuse another device's token, refresh an unchanged one, rotate the device's row, or
      take the value over from another account on the same device. False is PUSH_TOKEN_DEVICE_CONFLICT. */
  function Registered(
      db: Database, user: UserId, device: DeviceId, value: string, platform: string, newId: TokenId, now: Time)
    : (bool, Database)
    requires TokensUnique(db.tokens)
  {
    var own, requested := DeviceToken(db, user, device), ValueToken(db, value);
    if requested.Some? && db.tokens[requested.value].device != device then (false, db)
    else if own.Some? && db.tokens[own.value].value == value then
      (true, db.(tokens := db.tokens[own.value := db.tokens[own.value].(platform := platform)]))
    else
      var freed := if requested.Some? then RemoveTokens(db, {requested.value}, now) else db;
      if own.Some? then
        var retargeted := RetargetJobs(freed, own.value, value, now);
        (true, retargeted.(tokens := freed.tokens[own.value := Token(user, device, value, platform)]))
      else
        (true, freed.(tokens := freed.tokens[newId := Token(user, device, value, platform)]))
  }

  function Unregistered(db: Database, user: UserId, device: DeviceId, now: Time): (bool, Database) {
    var rows := set t | t in db.tokens && db.tokens[t].device == device;
    var own := set t | t in rows && t in db.tokens && db.tokens[t].user == user;
    if own == {} then (rows == {}, db) else (true, RemoveTokens(db, own, now))
  }

  /** What scheduling an account's deletion does to its tokens and jobs. */
  function DeletionScheduled(db: Database, user: UserId, now: Time): Database {
    RemoveTokens(db, TokensOf(db, user), now)
  }

  /** What anonymising an account does: its tokens go, then its notifications, whose jobs cascade. */
  function AccountAnonymized(db: Database, user: UserId): Database {
    var untokened := DeleteTokens(db, TokensOf(db, user));
    untokened.(
      notifications := map n | n in db.notifications && db.notifications[n] != user :: db.notifications[n],
      jobs := map j | j in untokened.jobs
                      && !(j.notification in db.notifications && db.notifications[j.notification] == user)
                    :: untokened.jobs[j])
  }

  predicate SendDue(job: Job, now: Time) {
    (job.status == Queued && job.nextAttemptAt <= now) || (job.status == Sending && AtOrBefore(job.lease, now))
  }

  predicate ReceiptDue(job: Job, now: Time) {
    || (job.status == ReceiptPending && AtOrBefore(job.receiptAvailableAt, now) && job.nextAttemptAt <= now)
    || (job.status == ReceiptChecking && AtOrBefore(job.lease, now))
  }

  function DueSends(jobs: map<JobId, Job>, now: Time): set<JobId> { set j | j in jobs && SendDue(jobs[j], now) }

  function DueReceipts(jobs: map<JobId, Job>, now: Time): set<JobId> { set j | j in jobs && ReceiptDue(jobs[j], now) }

  function SendClaimed(job: Job, lease: Time): Job {
    job.(status := Sending, sendAttempts := job.sendAttempts + 1, lease := Some(lease))
  }

  function ReceiptClaimed(job: Job, lease: Time): Job {
    job.(status := ReceiptChecking, receiptAttempts := job.receiptAttempts + 1, lease := Some(lease))
  }

  function ClaimSends(jobs: map<JobId, Job>, selected: set<JobId>, lease: Time): map<JobId, Job> {
    map j | j in jobs :: if j in selected then SendClaimed(jobs[j], lease) else jobs[j]
  }

  function ClaimReceipts(jobs: map<JobId, Job>, selected: set<JobId>, lease: Time): map<JobId, Job> {
    map j | j in jobs :: if j in selected then ReceiptClaimed(jobs[j], lease) else jobs[j]
  }

  predicate IdBefore(a: JobId, b: JobId) {
    a.notification < b.notification || (a.notification == b.notification && a.token < b.token)
  }

  predicate SendsBefore(jobs: map<JobId, Job>, a: JobId, b: JobId) {
    && a in jobs && b in jobs
    && if jobs[a].nextAttemptAt != jobs[b].nextAttemptAt then jobs[a].nextAttemptAt < jobs[b].nextAttemptAt
       else if jobs[a].createdAt != jobs[b].createdAt then jobs[a].createdAt < jobs[b].createdAt
       else IdBefore(a, b)
  }

  /** Receipt order: receiptAvailableAt (nulls last), createdAt, id. */
  predicate ReceiptsBefore(jobs: map<JobId, Job>, a: JobId, b: JobId) {
    && a in jobs && b in jobs
    && var x, y := jobs[a].receiptAvailableAt, jobs[b].receiptAvailableAt;
       if x != y then y.None? || (x.Some? && x.value < y.value)
       else if jobs[a].createdAt != jobs[b].createdAt then jobs[a].createdAt < jobs[b].createdAt
       else IdBefore(a, b)
  }

  function SendOrder(jobs: map<JobId, Job>): (JobId, JobId) -> bool { (a, b) => SendsBefore(jobs, a, b) }

  function ReceiptOrder(jobs: map<JobId, Job>): (JobId, JobId) -> bool { (a, b) => ReceiptsBefore(jobs, a, b) }

  /** A push result names the attempt it answers; only a permanent failure may invalidate the token. */
  datatype SendKind =
    | Accepted(ticket: string, receiptAvailableAt: Time)
    | RetrySend(nextAttemptAt: Time)
    | SendExhausted
    | SendPermanent(invalidate: Option<TokenId>)

  datatype ReceiptKind =
    | ReceiptDelivered
    | RetryReceipt(nextAttemptAt: Time)
    | ReceiptExhausted
    | ReceiptPermanent(invalidate: Option<TokenId>)

  datatype SendResult = SendResult(id: JobId, attempt: nat, kind: SendKind)
  datatype ReceiptResult = ReceiptResult(id: JobId, attempt: nat, kind: ReceiptKind)

  function SentJob(job: Job, kind: SendKind, now: Time): Job {
    match kind
    case Accepted(ticket, availableAt) =>
      job.(status := ReceiptPending, ticket := Some(ticket), receiptAvailableAt := Some(availableAt),
           nextAttemptAt := availableAt, lease := None)
    case RetrySend(nextAttemptAt) => job.(status := Queued, nextAttemptAt := nextAttemptAt, lease := None)
    case SendExhausted => job.(status := Exhausted, completedAt := Some(now), lease := None)
    case SendPermanent(_) => job.(status := FailedPermanent, completedAt := Some(now), lease := None)
  }

  function CheckedJob(job: Job, kind: ReceiptKind, now: Time): Job {
    match kind
    case ReceiptDelivered => job.(status := Delivered, completedAt := Some(now), lease := None)
    case RetryReceipt(nextAttemptAt) => job.(status := ReceiptPending, nextAttemptAt := nextAttemptAt, lease := None)
    case ReceiptExhausted => job.(status := Exhausted, completedAt := Some(now), lease := None)
    case ReceiptPermanent(_) => job.(status := FailedPermanent, completedAt := Some(now), lease := None)
  }

  predicate SendFence(db: Database, r: SendResult) {
    r.id in db.jobs && db.jobs[r.id].status == Sending && db.jobs[r.id].sendAttempts == r.attempt
  }

  predicate ReceiptFence(db: Database, r: ReceiptResult) {
    r.id in db.jobs && db.jobs[r.id].status == ReceiptChecking && db.jobs[r.id].receiptAttempts == r.attempt
  }

  function Invalidated(db: Database, token: Option<TokenId>, current: JobId, now: Time): Database {
    if token.Some? then DeleteTokens(CancelOpen(db, {token.value}, {current}, now), {token.value}) else db
  }

  /** What a result does to other jobs: at most they lose their token, or are cancelled. */
  predicate LeftAlone(u: Job, v: Job) {
    v == u || v == u.(pushToken := None) || (OpenStatus(u.status) && !OpenStatus(v.status))
  }

  lemma InvalidatedLeaves(db: Database, token: Option<TokenId>, current: JobId, now: Time)
    ensures
      var after := Invalidated(db, token, current, now);
      && after.jobs.Keys == db.jobs.Keys
      && (forall j :: j in db.jobs ==> LeftAlone(db.jobs[j], after.jobs[j]))
      && (current in db.jobs ==> after.jobs[current].status == db.jobs[current].status)
  {}

  function ApplySend(db: Database, r: SendResult, now: Time): Database {
    if !SendFence(db, r) then db
    else
      var updated := db.(jobs := db.jobs[r.id := SentJob(db.jobs[r.id], r.kind, now)]);
      Invalidated(updated, if r.kind.SendPermanent? then r.kind.invalidate else None, r.id, now)
  }

  function ApplyReceipt(db: Database, r: ReceiptResult, now: Time): Database {
    if !ReceiptFence(db, r) then db
    else
      var updated := db.(jobs := db.jobs[r.id := CheckedJob(db.jobs[r.id], r.kind, now)]);
      Invalidated(updated, if r.kind.ReceiptPermanent? then r.kind.invalidate else None, r.id, now)
  }

  function ApplySends(db: Database, results: seq<SendResult>, now: Time): Database
    decreases |results|
  {
    if results == [] then db else ApplySends(ApplySend(db, results[0], now), results[1..], now)
  }

  function ApplyReceipts(db: Database, results: seq<ReceiptResult>, now: Time): Database
    decreases |results|
  {
    if results == [] then db else ApplyReceipts(ApplyReceipt(db, results[0], now), results[1..], now)
  }

  /** With a lease in the future, what is still due after a claim is what was due and left out. */
  lemma ClaimLeavesTheRestDue(jobs: map<JobId, Job>, selected: set<JobId>, now: Time, lease: Time)
    requires lease > now
    ensures selected <= DueSends(jobs, now) ==>
      DueSends(ClaimSends(jobs, selected, lease), now) == DueSends(jobs, now) - selected
    ensures selected <= DueReceipts(jobs, now) ==>
      DueReceipts(ClaimReceipts(jobs, selected, lease), now) == DueReceipts(jobs, now) - selected
  {
    var sends, receipts := ClaimSends(jobs, selected, lease), ClaimReceipts(jobs, selected, lease);
    forall j | j in jobs
      ensures SendDue(sends[j], now) <==> SendDue(jobs[j], now) && j !in selected
      ensures ReceiptDue(receipts[j], now) <==> ReceiptDue(jobs[j], now) && j !in selected
    {}
  }

  // ------------------------------------------------- what the transactions owe their callers

  /** An open job ends cancelled; a finished one stays what it is. */
  predicate Withdrawn(u: Job, v: Job, now: Time) {
    if u.status in {Queued, Sending, ReceiptPending, ReceiptChecking}
    then v == u.(status := Cancelled, completedAt := Some(now), lease := None)
    else v == u
  }

  /** A new notification is recorded and, with push enabled, leaves one queued job, due at once and aimed at
      the token's value, for each token of its recipient, and none otherwise; nothing else changes. */
  ghost predicate NotifyAnswer(
    db: Database, after: Database, id: NotificationId, user: UserId, enqueue: bool, now: Time)
  {
    && after.notifications == db.notifications[id := user] && after.tokens == db.tokens
    && (forall j :: j in after.jobs <==> j in db.jobs || (enqueue && IsRecipientJob(db, j, id, user)))
    && (forall j :: j in db.jobs && !(enqueue && IsRecipientJob(db, j, id, user)) ==> after.jobs[j] == db.jobs[j])
    && (forall j :: enqueue && IsRecipientJob(db, j, id, user) ==>
          var job := after.jobs[j];
          && job.status == Queued && job.pushToken == Some(j.token) && job.snapshot == db.tokens[j.token].value
          && job.nextAttemptAt == now && job.createdAt == now && job.sendAttempts == 0 && job.receiptAttempts == 0
          && job.ticket.None? && job.receiptAvailableAt.None? && job.lease.None? && job.completedAt.None?)
  }

  predicate IsRecipientJob(db: Database, j: JobId, id: NotificationId, user: UserId) {
    j.notification == id && j.token in db.tokens && db.tokens[j.token].user == user
  }

  lemma NotifyAnswers(db: Database, id: NotificationId, user: UserId, enqueue: bool, now: Time)
    requires id !in db.notifications
    ensures NotifyAnswer(db, Created(db, id, user, enqueue, now), id, user, enqueue, now)
  {
    var after := Created(db, id, user, enqueue, now);
    forall j
      ensures j in after.jobs <==> j in db.jobs || (enqueue && IsRecipientJob(db, j, id, user))
      ensures enqueue && IsRecipientJob(db, j, id, user) ==>
        j in after.jobs && after.jobs[j] == NewJob(db.tokens[j.token], j.token, now)
      ensures j in db.jobs && !(enqueue && IsRecipientJob(db, j, id, user)) ==> j in after.jobs && after.jobs[j] == db.jobs[j]
    {
      assert j == JobId(j.notification, j.token);
    }
  }

  /** The value belongs to a row of another account on the same device. */
  predicate TakenOver(db: Database, t: TokenId, row: TokenId, value: string) {
    t != row && t in db.tokens && db.tokens[t].value == value
  }

  /** What registering a value in `row` does to one job: those of a row that is taken over are withdrawn,
      and when the row's own value changes, queued jobs follow it and jobs in flight are cancelled. */
  predicate JobFollows(db: Database, row: TokenId, value: string, u: Job, v: Job, now: Time) {
    if u.pushToken.Some? && TakenOver(db, u.pushToken.value, row, value) then
      v.pushToken.None? && Withdrawn(u, v.(pushToken := u.pushToken), now)
    else if u.pushToken == Some(row) && row in db.tokens && db.tokens[row].value != value then
      if u.status == Queued then v == u.(snapshot := value) else Withdrawn(u, v, now)
    else v == u
  }

  /** The device's row, or a new one, holds the value, no other row does, and all other tokens stand. */
  ghost predicate TokenPlaced(
    db: Database, after: Database, row: TokenId, user: UserId, device: DeviceId, value: string, platform: string,
    newId: TokenId, now: Time)
  {
    && (if row in db.tokens then db.tokens[row].user == user && db.tokens[row].device == device
        else row == newId && forall t :: t in db.tokens ==> !IsDeviceToken(db.tokens[t], user, device))
    && after.notifications == db.notifications
    && row in after.tokens && after.tokens[row] == Token(user, device, value, platform)
    && (forall t :: t != row ==> (t in after.tokens <==> t in db.tokens && db.tokens[t].value != value))
    && (forall t :: t != row && t in after.tokens ==> after.tokens[t] == db.tokens[t])
    && after.jobs.Keys == db.jobs.Keys
    && (forall j :: j in db.jobs ==> JobFollows(db, row, value, db.jobs[j], after.jobs[j], now))
  }

  /** Registration is refused if and only if the value sits on another device, and then changes nothing. */
  ghost predicate RegisterAnswer(
    db: Database, after: Database, user: UserId, device: DeviceId, value: string, platform: string, newId: TokenId,
    now: Time, registered: bool)
  {
    && (registered <==> forall t :: t in db.tokens && db.tokens[t].value == value ==> db.tokens[t].device == device)
    && (!registered ==> after == db)
    && (registered ==> exists row :: TokenPlaced(db, after, row, user, device, value, platform, newId, now))
  }

  lemma JobsFollow(
      db: Database, user: UserId, device: DeviceId, value: string, platform: string, newId: TokenId, now: Time,
      row: TokenId, j: JobId)
    requires TokensUnique(db.tokens) && newId !in db.tokens && j in db.jobs
    requires
      var own := DeviceToken(db, user, device);
      row == if own.Some? then own.value else newId
    requires forall t :: t in db.tokens && db.tokens[t].value == value ==> db.tokens[t].device == device
    ensures
      var after := Registered(db, user, device, value, platform, newId, now).1;
      j in after.jobs && JobFollows(db, row, value, db.jobs[j], after.jobs[j], now)
  {
    var own, requested := DeviceToken(db, user, device), ValueToken(db, value);
    assert forall t :: t in db.tokens ==>
      && (requested == Some(t) <==> db.tokens[t].value == value)
      && (own == Some(t) <==> IsDeviceToken(db.tokens[t], user, device));
    if !(own.Some? && db.tokens[own.value].value == value) {
      var u, freed := db.jobs[j], if requested.Some? then RemoveTokens(db, {requested.value}, now) else db;
      var v := freed.jobs[j];
      assert if u.pushToken.Some? && requested == u.pushToken
             then v.pushToken.None? && Withdrawn(u, v.(pushToken := u.pushToken), now) else v == u;
    }
  }

  lemma RegisterAnswers(
      db: Database, user: UserId, device: DeviceId, value: string, platform: string, newId: TokenId, now: Time)
    requires TokensUnique(db.tokens) && newId !in db.tokens
    ensures
      var (registered, after) := Registered(db, user, device, value, platform, newId, now);
      RegisterAnswer(db, after, user, device, value, platform, newId, now, registered)
  {
    var own := DeviceToken(db, user, device);
    var (registered, after) := Registered(db, user, device, value, platform, newId, now);
    if registered {
      var row := if own.Some? then own.value else newId;
      forall j | j in db.jobs
        ensures j in after.jobs && JobFollows(db, row, value, db.jobs[j], after.jobs[j], now)
      {
        JobsFollow(db, user, device, value, platform, newId, now, row, j);
      }
      assert TokenPlaced(db, after, row, user, device, value, platform, newId, now);
    }
  }

  /** The given tokens are gone and their jobs withdrawn; all other tokens and jobs stand. */
  ghost predicate TokensRemoved(db: Database, after: Database, gone: set<TokenId>, now: Time) {
    && after.notifications == db.notifications && after.jobs.Keys == db.jobs.Keys
    && after.tokens.Keys == db.tokens.Keys - gone
    && (forall t :: t in after.tokens ==> after.tokens[t] == db.tokens[t])
    && (forall j :: j in db.jobs ==>
          var u, v := db.jobs[j], after.jobs[j];
          if u.pushToken.Some? && u.pushToken.value in gone
          then v.pushToken.None? && Withdrawn(u, v.(pushToken := u.pushToken), now)
          else v == u)
  }

  lemma RemovalMeets(db: Database, gone: set<TokenId>, now: Time)
    ensures TokensRemoved(db, RemoveTokens(db, gone, now), gone, now)
  {}

  /** Unregistering succeeds if the device has a token of the user or no token at all, and takes exactly the
      user's tokens on the device. */
  ghost predicate UnregisterAnswer(
    db: Database, after: Database, user: UserId, device: DeviceId, now: Time, done: bool)
  {
    var own := set t | t in db.tokens && db.tokens[t].device == device && db.tokens[t].user == user;
    && (done <==> own != {} || forall t :: t in db.tokens ==> db.tokens[t].device != device)
    && TokensRemoved(db, after, own, now)
  }

  lemma UnregisterAnswers(db: Database, user: UserId, device: DeviceId, now: Time)
    ensures
      var (done, after) := Unregistered(db, user, device, now);
      UnregisterAnswer(db, after, user, device, now, done)
  {
    var rows := set t | t in db.tokens && db.tokens[t].device == device;
    var own := set t | t in rows && t in db.tokens && db.tokens[t].user == user;
    assert own == set t | t in db.tokens && db.tokens[t].device == device && db.tokens[t].user == user;
    assert rows == {} <==> forall t :: t in db.tokens ==> db.tokens[t].device != device by {
      assert forall t :: t in db.tokens && db.tokens[t].device == device ==> t in rows;
      if rows != {} {
        var t := Member(rows);
        assert db.tokens[t].device == device;
      }
    }
    RemovalMeets(db, own, now);
  }

  /** A scheduled deletion takes exactly the account's tokens; anonymising takes its notifications with
      their jobs, and the jobs that other accounts have at its tokens lose nothing but the token. */
  lemma AccountEventsMeet(db: Database, user: UserId, now: Time)
    ensures
      var own := set t | t in db.tokens && db.tokens[t].user == user;
      TokensRemoved(db, DeletionScheduled(db, user, now), own, now)
    ensures
      var after := AccountAnonymized(db, user);
      && (forall n :: n in after.notifications <==> n in db.notifications && db.notifications[n] != user)
      && (forall n :: n in after.notifications ==> after.notifications[n] == db.notifications[n])
      && (forall t :: t in after.tokens <==> t in db.tokens && db.tokens[t].user != user)
      && (forall t :: t in after.tokens ==> after.tokens[t] == db.tokens[t])
      && (forall j :: j in after.jobs <==>
            j in db.jobs && !(j.notification in db.notifications && db.notifications[j.notification] == user))
      && (forall j :: j in after.jobs ==>
            var u := db.jobs[j];
            after.jobs[j] == if u.pushToken.Some? && u.pushToken.value in db.tokens && db.tokens[u.pushToken.value].user == user
                             then u.(pushToken := None) else u)
  {
    var own := TokensOf(db, user);
    assert own == set t | t in db.tokens && db.tokens[t].user == user;
    RemovalMeets(db, own, now);
  }

  predicate IdFirst(a: JobId, b: JobId) {
    a.notification < b.notification || (a.notification == b.notification && a.token < b.token)
  }

  /** Earlier attempts go out first, then older jobs, then lower ids. */
  predicate SendsFirst(u: Job, a: JobId, v: Job, b: JobId) {
    || u.nextAttemptAt < v.nextAttemptAt
    || (u.nextAttemptAt == v.nextAttemptAt && u.createdAt < v.createdAt)
    || (u.nextAttemptAt == v.nextAttemptAt && u.createdAt == v.createdAt && IdFirst(a, b))
  }

  /** Receipts that are available first are checked first, then older jobs, then lower ids. */
  predicate ChecksFirst(u: Job, a: JobId, v: Job, b: JobId) {
    var p, q := u.receiptAvailableAt, v.receiptAvailableAt;
    || (p.Some? && (q.None? || p.value < q.value))
    || (p == q && u.createdAt < v.createdAt)
    || (p == q && u.createdAt == v.createdAt && IdFirst(a, b))
  }

  /** A claim leaves a due job out only if it took as many as it may, each of which comes first. */
  ghost predicate ClaimAnswer(
    jobs: map<JobId, Job>, due: set<JobId>, claimed: set<JobId>, first: (Job, JobId, Job, JobId) -> bool, limit: nat)
  {
    && |claimed| <= limit && claimed <= due <= jobs.Keys
    && (forall j :: j in due - claimed ==>
          |claimed| == limit && forall c :: c in claimed ==> first(jobs[c], c, jobs[j], j))
  }

  lemma ClaimAnswers(jobs: map<JobId, Job>, claimed: set<JobId>, now: Time, limit: nat)
    ensures IsFirstOf(claimed, DueSends(jobs, now), SendOrder(jobs), limit) ==>
      ClaimAnswer(jobs, DueSends(jobs, now), claimed, SendsFirst, limit)
    ensures IsFirstOf(claimed, DueReceipts(jobs, now), ReceiptOrder(jobs), limit) ==>
      ClaimAnswer(jobs, DueReceipts(jobs, now), claimed, ChecksFirst, limit)
  {
    if IsFirstOf(claimed, DueSends(jobs, now), SendOrder(jobs), limit) {
      assert forall c, j :: c in claimed && j in DueSends(jobs, now) - claimed ==> SendOrder(jobs)(c, j);
    }
    if IsFirstOf(claimed, DueReceipts(jobs, now), ReceiptOrder(jobs), limit) {
      assert forall c, j :: c in claimed && j in DueReceipts(jobs, now) - claimed ==> ReceiptOrder(jobs)(c, j);
    }
  }

  // ------------------------------------------------------------ the repository

  class NotificationRepository {
    var notifications: map<NotificationId, UserId>
    var tokens: map<TokenId, Token>
    var jobs: map<JobId, Job>

    constructor ()
      ensures Db() == Database(map[], map[], map[])
    {
      notifications, tokens, jobs := map[], map[], map[];
    }

    function Db(): Database
      reads this
    {
      Database(notifications, tokens, jobs)
    }

    method CreateWithPushOutbox(id: NotificationId, user: UserId, enqueue: bool, now: Time)
      modifies this
      ensures Db() == Created(old(Db()), id, user, enqueue, now)
      ensures if id in old(notifications) then Db() == old(Db()) else NotifyAnswer(old(Db()), Db(), id, user, enqueue, now)
    {
      if id in notifications {
        return;
      }
      NotifyAnswers(Db(), id, user, enqueue, now);
      notifications := notifications[id := user];
      var recipients := if enqueue then TokensOf(Db(), user) else {};
      jobs := jobs + map t | t in recipients && t in tokens :: JobId(id, t) := NewJob(tokens[t], t, now);
    }

    method CancelOpenJobs(ids: set<TokenId>, spared: set<JobId>, now: Time)
      modifies this`jobs
      ensures Db() == CancelOpen(old(Db()), ids, spared, now)
    {
      jobs := map j | j in jobs ::
        if OfTokens(jobs[j], ids) && j !in spared && OpenStatus(jobs[j].status)
        then jobs[j].(status := Cancelled, completedAt := Some(now), lease := None) else jobs[j];
    }

    method DeletePushTokens(ids: set<TokenId>)
      modifies this`jobs, this`tokens
      ensures Db() == DeleteTokens(old(Db()), ids)
    {
      tokens := tokens - ids;
      jobs := map j | j in jobs :: if OfTokens(jobs[j], ids) then jobs[j].(pushToken := None) else jobs[j];
    }

    method RetargetJobsOf(id: TokenId, value: string, now: Time)
      modifies this`jobs
      ensures Db() == RetargetJobs(old(Db()), id, value, now)
    {
      jobs := map j | j in jobs :: FollowedJob(jobs[j], id, value);
      jobs := map j | j in jobs :: HaltedJob(jobs[j], id, now);
    }

    method RegisterPushToken(
        user: UserId, device: DeviceId, value: string, platform: string, newId: TokenId, now: Time)
      returns (registered: bool)
      requires TokensUnique(tokens)
      modifies this
      ensures (registered, Db()) == Registered(old(Db()), user, device, value, platform, newId, now)
      ensures newId !in old(tokens) ==>
        RegisterAnswer(old(Db()), Db(), user, device, value, platform, newId, now, registered)
    {
      if newId !in tokens {
        RegisterAnswers(Db(), user, device, value, platform, newId, now);
      }
      var own, requested := DeviceToken(Db(), user, device), ValueToken(Db(), value);
      if requested.Some? && tokens[requested.value].device != device {
        return false;
      }
      if own.Some? && tokens[own.value].value == value {
        tokens := tokens[own.value := tokens[own.value].(platform := platform)];
        return true;
      }
      if requested.Some? {
        CancelOpenJobs({requested.value}, {}, now);
        DeletePushTokens({requested.value});
      }
      if own.Some? {
        RetargetJobsOf(own.value, value, now);
        tokens := tokens[own.value := Token(user, device, value, platform)];
      } else {
        tokens := tokens[newId := Token(user, device, value, platform)];
      }
      return true;
    }

    method UnregisterPushToken(user: UserId, device: DeviceId, now: Time) returns (done: bool)
      modifies this
      ensures (done, Db()) == Unregistered(old(Db()), user, device, now)
      ensures UnregisterAnswer(old(Db()), Db(), user, device, now, done)
    {
      UnregisterAnswers(Db(), user, device, now);
      var rows := set t | t in tokens && tokens[t].device == device;
      var own := set t | t in rows && t in tokens && tokens[t].user == user;
      if own == {} {
        return rows == {};
      }
      CancelOpenJobs(own, {}, now);
      DeletePushTokens(own);
      return true;
    }

    method ClaimSendBatch(now: Time, lease: Time, limit: nat) returns (claimed: set<JobId>, hasMore: bool)
      modifies this
      ensures IsFirstOf(claimed, DueSends(old(jobs), now), SendOrder(old(jobs)), limit)
      ensures Db() == old(Db()).(jobs := ClaimSends(old(jobs), claimed, lease))
      ensures hasMore <==> claimed != {} && DueSends(jobs, now) != {}
      ensures ClaimAnswer(old(jobs), DueSends(old(jobs), now), claimed, SendsFirst, limit)
    {
      claimed := SelectFirst(DueSends(jobs, now), SendOrder(jobs), limit);
      ClaimAnswers(jobs, claimed, now, limit);
      if claimed == {} {
        assert jobs == ClaimSends(jobs, claimed, lease);
        hasMore := false;
        return;
      }
      jobs := ClaimSends(jobs, claimed, lease);
      hasMore := DueSends(jobs, now) != {};
    }

    method ClaimReceiptBatch(now: Time, lease: Time, limit: nat) returns (claimed: set<JobId>, hasMore: bool)
      modifies this
      ensures IsFirstOf(claimed, DueReceipts(old(jobs), now), ReceiptOrder(old(jobs)), limit)
      ensures Db() == old(Db()).(jobs := ClaimReceipts(old(jobs), claimed, lease))
      ensures hasMore <==> claimed != {} && DueReceipts(jobs, now) != {}
      ensures ClaimAnswer(old(jobs), DueReceipts(old(jobs), now), claimed, ChecksFirst, limit)
    {
      claimed := SelectFirst(DueReceipts(jobs, now), ReceiptOrder(jobs), limit);
      ClaimAnswers(jobs, claimed, now, limit);
      if claimed == {} {
        assert jobs == ClaimReceipts(jobs, claimed, lease);
        hasMore := false;
        return;
      }
      jobs := ClaimReceipts(jobs, claimed, lease);
      hasMore := DueReceipts(jobs, now) != {};
    }

    method InvalidatePushToken(token: TokenId, current: JobId, now: Time)
      modifies this`jobs, this`tokens
      ensures Db() == Invalidated(old(Db()), Some(token), current, now)
    {
      CancelOpenJobs({token}, {current}, now);
      DeletePushTokens({token});
    }

    method ApplySendResults(results: seq<SendResult>, now: Time)
      modifies this
      ensures Db() == ApplySends(old(Db()), results, now)
    {
      for i := 0 to |results|
        invariant ApplySends(Db(), results[i..], now) == ApplySends(old(Db()), results, now)
      {
        assert results[i..][1..] == results[i + 1..];
        var r := results[i];
        if SendFence(Db(), r) {
          jobs := jobs[r.id := SentJob(jobs[r.id], r.kind, now)];
          if r.kind.SendPermanent? && r.kind.invalidate.Some? {
            InvalidatePushToken(r.kind.invalidate.value, r.id, now);
          }
        }
      }
    }

    method ApplyReceiptResults(results: seq<ReceiptResult>, now: Time)
      modifies this
      ensures Db() == ApplyReceipts(old(Db()), results, now)
    {
      for i := 0 to |results|
        invariant ApplyReceipts(Db(), results[i..], now) == ApplyReceipts(old(Db()), results, now)
      {
        assert results[i..][1..] == results[i + 1..];
        var r := results[i];
        if ReceiptFence(Db(), r) {
          jobs := jobs[r.id := CheckedJob(jobs[r.id], r.kind, now)];
          if r.kind.ReceiptPermanent? && r.kind.invalidate.Some? {
            InvalidatePushToken(r.kind.invalidate.value, r.id, now);
          }
        }
      }
    }
  }
}
