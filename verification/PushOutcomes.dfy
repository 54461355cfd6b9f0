/** What an answer of the provider owes the job it is about, its token, and everything else. */
module PushOutcomes {
  import opened Common
  import opened PushTable
  import opened PushRules

  /** The provider knows the device no more. */
  predicate Revokes(answer: Option<Answer>) { answer == Some(Rejected(Some("DeviceNotRegistered"))) }

  /** No verdict on the message: it is sent again while attempts are left. */
  predicate Transient(answer: Option<Answer>) {
    || answer == None
    || answer == Some(Rejected(Some("MessageRateExceeded")))
    || answer == Some(Rejected(Some("ProviderError")))
  }

  function Waiting(row: Job, status: PushStatus, at: Time): Job {
    row.(status := status, nextAttemptAt := at, lease := None)
  }

  function Over(row: Job, status: PushStatus, now: Time): Job {
    row.(status := status, completedAt := Some(now), lease := None)
  }

  /** A send: accepted messages wait a quarter of an hour for their receipt, transient failures go back to
      the queue five times, and any other refusal is final. */
  function AfterSend(row: Job, answer: Option<Answer>, now: Time): Job {
    if answer.Some? && answer.value.Ok? then
      Waiting(row, ReceiptPending, now + 15 * MINUTE_MS)
        .(ticket := Some(answer.value.ticket), receiptAvailableAt := Some(now + 15 * MINUTE_MS))
    else if !Transient(answer) then Over(row, FailedPermanent, now)
    else if row.sendAttempts < 5 then Waiting(row, Queued, now + BackoffMs(row.sendAttempts))
    else Over(row, Exhausted, now)
  }

  /** A receipt: a good one delivers, a missing one is asked for eight times, any other is final. */
  function AfterCheck(row: Job, answer: Option<Answer>, now: Time): Job {
    if row.ticket.None? then Over(row, FailedPermanent, now)
    else if answer.Some? then Over(row, if answer.value.Ok? then Delivered else FailedPermanent, now)
    else if row.receiptAttempts < 8 then Waiting(row, ReceiptPending, now + BackoffMs(row.receiptAttempts))
    else Over(row, Exhausted, now)
  }

  /** A job whose token is revoked loses it, and is cancelled unless it was over. */
  function Bereft(u: Job, gone: set<TokenId>, now: Time): Job {
    if u.pushToken.None? || u.pushToken.value !in gone then u
    else if u.status in {Queued, Sending, ReceiptPending, ReceiptChecking} then Over(u, Cancelled, now).(pushToken := None)
    else u.(pushToken := None)
  }

  // ------------------------------------------------------------------ one result

  /** One accepted result: its job ends as the answer says, a revoked token goes, and every other job is left
      alone but for losing that token. */
  ghost predicate AnswerTaken(
    db: Database, after: Database, id: JobId, settled: Job, gone: set<TokenId>, now: Time)
  {
    && after.notifications == db.notifications && after.jobs.Keys == db.jobs.Keys
    && after.tokens == db.tokens - gone
    && (forall j :: j in db.jobs ==> after.jobs[j] == Bereft(if j == id then settled else db.jobs[j], gone, now))
  }

  function RevokedToken(row: Job, answer: Option<Answer>): set<TokenId> {
    if Revokes(answer) && row.pushToken.Some? then {row.pushToken.value} else {}
  }

  lemma JobRecorded(db: Database, id: JobId, settled: Job, token: Option<TokenId>, now: Time, j: JobId)
    requires id in db.jobs && (token.Some? ==> !OpenStatus(settled.status)) && j in db.jobs
    ensures
      var after := Invalidated(db.(jobs := db.jobs[id := settled]), token, id, now);
      && j in after.jobs
      && after.jobs[j]
         == Bereft(if j == id then settled else db.jobs[j], if token.Some? then {token.value} else {}, now)
  {}

  lemma RecordedSettles(db: Database, id: JobId, settled: Job, token: Option<TokenId>, now: Time)
    requires id in db.jobs && (token.Some? ==> !OpenStatus(settled.status))
    ensures
      var updated := db.(jobs := db.jobs[id := settled]);
      AnswerTaken(db, Invalidated(updated, token, id, now), id, settled, if token.Some? then {token.value} else {}, now)
  {
    forall j | j in db.jobs
      ensures
        var after := Invalidated(db.(jobs := db.jobs[id := settled]), token, id, now);
        && j in after.jobs
        && after.jobs[j]
           == Bereft(if j == id then settled else db.jobs[j], if token.Some? then {token.value} else {}, now)
    {
      JobRecorded(db, id, settled, token, now, j);
    }
  }

  lemma SendRuleMeets(row: Job, answer: Option<Answer>, now: Time)
    ensures
      var kind := TicketKind(row, answer, now);
      && SentJob(row, kind, now) == AfterSend(row, answer, now)
      && (if kind.SendPermanent? && kind.invalidate.Some? then {kind.invalidate.value} else {}) == RevokedToken(row, answer)
  {}

  lemma CheckRuleMeets(row: Job, answer: Option<Answer>, now: Time)
    requires row.ticket.Some?
    ensures
      var kind := CheckKind(row, answer, now);
      && CheckedJob(row, kind, now) == AfterCheck(row, answer, now)
      && (if kind.ReceiptPermanent? && kind.invalidate.Some? then {kind.invalidate.value} else {}) == RevokedToken(row, answer)
  {}

  lemma SendSettles(db: Database, id: JobId, answer: Option<Answer>, now: Time)
    requires id in db.jobs && db.jobs[id].status == Sending
    ensures
      var row := db.jobs[id];
      AnswerTaken(db, ApplySend(db, SendResult(id, row.sendAttempts, TicketKind(row, answer, now)), now), id,
              AfterSend(row, answer, now), RevokedToken(row, answer), now)
  {
    var kind := TicketKind(db.jobs[id], answer, now);
    SendRuleMeets(db.jobs[id], answer, now);
    RecordedSettles(db, id, SentJob(db.jobs[id], kind, now), if kind.SendPermanent? then kind.invalidate else None, now);
  }

  lemma CheckSettles(db: Database, id: JobId, answer: Option<Answer>, now: Time)
    requires id in db.jobs && db.jobs[id].status == ReceiptChecking && db.jobs[id].ticket.Some?
    ensures
      var row := db.jobs[id];
      AnswerTaken(db, ApplyReceipt(db, ReceiptResult(id, row.receiptAttempts, CheckKind(row, answer, now)), now), id,
              AfterCheck(row, answer, now), RevokedToken(row, answer), now)
  {
    var kind := CheckKind(db.jobs[id], answer, now);
    CheckRuleMeets(db.jobs[id], answer, now);
    RecordedSettles(db, id, CheckedJob(db.jobs[id], kind, now), if kind.ReceiptPermanent? then kind.invalidate else None, now);
  }

  lemma TicketlessSettles(db: Database, id: JobId, now: Time)
    requires id in db.jobs && db.jobs[id].status == ReceiptChecking && db.jobs[id].ticket.None?
    ensures
      var row := db.jobs[id];
      AnswerTaken(db, ApplyReceipt(db, ReceiptResult(id, row.receiptAttempts, ReceiptPermanent(None)), now), id,
              AfterCheck(row, None, now), {}, now)
  {
    RecordedSettles(db, id, CheckedJob(db.jobs[id], ReceiptPermanent(None), now), None, now);
  }

  // ---------------------------------------------------------------------- a batch

  /** The tokens that the answers to the first `n` jobs revoke. */
  function Gone(jobs: seq<Claimed>, answers: seq<Option<Answer>>, n: nat): set<TokenId>
    requires n <= |jobs| == |answers|
  {
    set i | 0 <= i < n && Revokes(answers[i]) && jobs[i].row.pushToken.Some? :: jobs[i].row.pushToken.value
  }

  /** A job whose token an earlier answer of the batch revoked is cancelled by then, and its own answer
      comes too late. */
  predicate Overtaken(jobs: seq<Claimed>, answers: seq<Option<Answer>>, i: nat)
    requires i < |jobs| == |answers|
  {
    jobs[i].row.pushToken.Some? && jobs[i].row.pushToken.value in Gone(jobs, answers, i)
  }

  predicate Among(jobs: seq<Claimed>, n: nat, j: JobId)
    requires n <= |jobs|
  {
    exists i :: 0 <= i < n && jobs[i].id == j
  }

  /** What the first `n` answers made of the `i`th job. */
  predicate ListedSettled(
    after: Database, jobs: seq<Claimed>, answers: seq<Option<Answer>>, settled: seq<Job>, n: nat, now: Time, i: nat)
    requires i < n <= |jobs| == |answers| == |settled|
  {
    && jobs[i].id in after.jobs
    && after.jobs[jobs[i].id]
       == Bereft(if Overtaken(jobs, answers, i) then jobs[i].row else settled[i], Gone(jobs, answers, n), now)
  }

  /** `db` is the database that the jobs were claimed in, `after` the one with the first `n` answers
      recorded, and `settled` what each answer makes of its job. */
  ghost predicate SettledUpTo(
    db: Database, after: Database, jobs: seq<Claimed>, answers: seq<Option<Answer>>, settled: seq<Job>, n: nat,
    now: Time)
    requires n <= |jobs| == |answers| == |settled|
  {
    && after.notifications == db.notifications && after.jobs.Keys == db.jobs.Keys
    && after.tokens == db.tokens - Gone(jobs, answers, n)
    && (forall j :: j in db.jobs && !Among(jobs, n, j) ==>
          after.jobs[j] == Bereft(db.jobs[j], Gone(jobs, answers, n), now))
    && (forall i :: 0 <= i < n ==> ListedSettled(after, jobs, answers, settled, n, now, i))
  }

  lemma BereftTwice(u: Job, first: set<TokenId>, second: set<TokenId>, now: Time)
    ensures Bereft(Bereft(u, first, now), second, now) == Bereft(u, first + second, now)
  {}

  /** The step that the next answer makes: none if its job was overtaken. */
  ghost predicate NextRecorded(
    mid: Database, next: Database, jobs: seq<Claimed>, answers: seq<Option<Answer>>, settled: seq<Job>, n: nat,
    now: Time)
    requires n < |jobs| == |answers| == |settled|
  {
    if Overtaken(jobs, answers, n) then next == mid
    else AnswerTaken(mid, next, jobs[n].id, settled[n], RevokedToken(jobs[n].row, answers[n]), now)
  }

  lemma GoneNext(jobs: seq<Claimed>, answers: seq<Option<Answer>>, n: nat)
    requires n < |jobs| == |answers|
    ensures Gone(jobs, answers, n + 1) == Gone(jobs, answers, n) + RevokedToken(jobs[n].row, answers[n])
    ensures Overtaken(jobs, answers, n) ==> Gone(jobs, answers, n + 1) == Gone(jobs, answers, n)
  {}

  ghost predicate Distinct(jobs: seq<Claimed>) { forall i, j :: 0 <= i < j < |jobs| ==> jobs[i].id != jobs[j].id }

  lemma UnlistedNext(
      db: Database, mid: Database, next: Database, jobs: seq<Claimed>, answers: seq<Option<Answer>>,
      settled: seq<Job>, n: nat, now: Time, j: JobId)
    requires n < |jobs| == |answers| == |settled|
    requires SettledUpTo(db, mid, jobs, answers, settled, n, now)
    requires NextRecorded(mid, next, jobs, answers, settled, n, now)
    requires j in db.jobs && !Among(jobs, n + 1, j)
    ensures next.jobs[j] == Bereft(db.jobs[j], Gone(jobs, answers, n + 1), now)
  {
    GoneNext(jobs, answers, n);
    assert Among(jobs, n + 1, jobs[n].id);
    assert !Among(jobs, n, j);
    BereftTwice(db.jobs[j], Gone(jobs, answers, n), RevokedToken(jobs[n].row, answers[n]), now);
  }

  lemma ListedNext(
      db: Database, mid: Database, next: Database, jobs: seq<Claimed>, answers: seq<Option<Answer>>,
      settled: seq<Job>, n: nat, now: Time, i: nat)
    requires i < n < |jobs| == |answers| == |settled| && Distinct(jobs)
    requires SettledUpTo(db, mid, jobs, answers, settled, n, now)
    requires NextRecorded(mid, next, jobs, answers, settled, n, now)
    ensures ListedSettled(next, jobs, answers, settled, n + 1, now, i)
  {
    assert ListedSettled(mid, jobs, answers, settled, n, now, i);
    GoneNext(jobs, answers, n);
    BereftTwice(if Overtaken(jobs, answers, i) then jobs[i].row else settled[i],
                Gone(jobs, answers, n), RevokedToken(jobs[n].row, answers[n]), now);
  }

  lemma OwnNext(
      db: Database, mid: Database, next: Database, jobs: seq<Claimed>, answers: seq<Option<Answer>>,
      settled: seq<Job>, n: nat, now: Time)
    requires n < |jobs| == |answers| == |settled| && Distinct(jobs)
    requires jobs[n].id in db.jobs && db.jobs[jobs[n].id] == jobs[n].row
    requires SettledUpTo(db, mid, jobs, answers, settled, n, now)
    requires NextRecorded(mid, next, jobs, answers, settled, n, now)
    requires settled[n].pushToken == jobs[n].row.pushToken
    ensures ListedSettled(next, jobs, answers, settled, n + 1, now, n)
  {
    GoneNext(jobs, answers, n);
    assert !Among(jobs, n, jobs[n].id);
  }

  lemma TokensNext(
      db: Database, mid: Database, next: Database, jobs: seq<Claimed>, answers: seq<Option<Answer>>,
      settled: seq<Job>, n: nat, now: Time)
    requires n < |jobs| == |answers| == |settled|
    requires SettledUpTo(db, mid, jobs, answers, settled, n, now)
    requires NextRecorded(mid, next, jobs, answers, settled, n, now)
    ensures next.notifications == db.notifications && next.jobs.Keys == db.jobs.Keys
    ensures next.tokens == db.tokens - Gone(jobs, answers, n + 1)
  {
    GoneNext(jobs, answers, n);
  }

  lemma AllListedNext(
      db: Database, mid: Database, next: Database, jobs: seq<Claimed>, answers: seq<Option<Answer>>,
      settled: seq<Job>, n: nat, m: nat, now: Time)
    requires m == n + 1 && n < |jobs| == |answers| == |settled| && Distinct(jobs)
    requires jobs[n].id in db.jobs && db.jobs[jobs[n].id] == jobs[n].row
    requires SettledUpTo(db, mid, jobs, answers, settled, n, now)
    requires NextRecorded(mid, next, jobs, answers, settled, n, now)
    requires settled[n].pushToken == jobs[n].row.pushToken
    ensures forall i :: 0 <= i < m ==> ListedSettled(next, jobs, answers, settled, m, now, i)
  {
    forall i | 0 <= i < m
      ensures ListedSettled(next, jobs, answers, settled, m, now, i)
    {
      if i < n {
        ListedNext(db, mid, next, jobs, answers, settled, n, now, i);
      } else {
        OwnNext(db, mid, next, jobs, answers, settled, n, now);
      }
    }
  }

  lemma SettleNext(
      db: Database, mid: Database, next: Database, jobs: seq<Claimed>, answers: seq<Option<Answer>>,
      settled: seq<Job>, n: nat, m: nat, now: Time)
    requires m == n + 1 && n < |jobs| == |answers| == |settled| && Distinct(jobs)
    requires jobs[n].id in db.jobs && db.jobs[jobs[n].id] == jobs[n].row
    requires SettledUpTo(db, mid, jobs, answers, settled, n, now)
    requires NextRecorded(mid, next, jobs, answers, settled, n, now)
    requires settled[n].pushToken == jobs[n].row.pushToken
    ensures SettledUpTo(db, next, jobs, answers, settled, m, now)
  {
    TokensNext(db, mid, next, jobs, answers, settled, n, now);
    AllListedNext(db, mid, next, jobs, answers, settled, n, m, now);
    forall j | j in db.jobs && !Among(jobs, m, j)
      ensures next.jobs[j] == Bereft(db.jobs[j], Gone(jobs, answers, m), now)
    {
      UnlistedNext(db, mid, next, jobs, answers, settled, n, now, j);
    }
  }

  /** The answers to a send request: one for each message in order, or none if the request failed or the
      provider did not return one for each. */
  function AnswersToSends(jobs: seq<Claimed>, reply: SendReply): (answers: seq<Option<Answer>>)
    ensures |answers| == |jobs|
  {
    if reply.Tickets? && |reply.tickets| == |jobs|
    then seq(|jobs|, i requires 0 <= i < |jobs| => Some(reply.tickets[i]))
    else seq(|jobs|, _ => None)
  }

  /** The answers to a receipt request, by ticket; a batch with a job that has no ticket asks nothing. */
  function AnswersToChecks(jobs: seq<Claimed>, reply: ReceiptReply): (answers: seq<Option<Answer>>)
    ensures |answers| == |jobs|
  {
    if reply.Receipts? && forall i :: 0 <= i < |jobs| ==> jobs[i].row.ticket.Some?
    then
      seq(|jobs|, i requires 0 <= i < |jobs| =>
        if jobs[i].row.ticket.value in reply.receipts then Some(reply.receipts[jobs[i].row.ticket.value]) else None)
    else seq(|jobs|, _ => None)
  }

  function SettledSends(jobs: seq<Claimed>, reply: SendReply, now: Time): (settled: seq<Job>)
    ensures |settled| == |jobs|
  {
    seq(|jobs|, i requires 0 <= i < |jobs| => AfterSend(jobs[i].row, AnswersToSends(jobs, reply)[i], now))
  }

  function SettledChecks(jobs: seq<Claimed>, reply: ReceiptReply, now: Time): (settled: seq<Job>)
    ensures |settled| == |jobs|
  {
    seq(|jobs|, i requires 0 <= i < |jobs| => AfterCheck(jobs[i].row, AnswersToChecks(jobs, reply)[i], now))
  }

  ghost predicate RowsOf(db: Database, jobs: seq<Claimed>, status: PushStatus) {
    && Distinct(jobs)
    && forall i :: 0 <= i < |jobs| ==>
         jobs[i].id in db.jobs && db.jobs[jobs[i].id] == jobs[i].row && jobs[i].row.status == status
  }

  /** The row of the next job while the batch is recorded. */
  lemma NextRow(
      db: Database, mid: Database, jobs: seq<Claimed>, answers: seq<Option<Answer>>, settled: seq<Job>, n: nat,
      status: PushStatus, now: Time)
    requires n < |jobs| == |answers| == |settled| && RowsOf(db, jobs, status)
    requires SettledUpTo(db, mid, jobs, answers, settled, n, now) && OpenStatus(status)
    ensures jobs[n].id in mid.jobs
    ensures if Overtaken(jobs, answers, n) then mid.jobs[jobs[n].id].status == Cancelled
            else mid.jobs[jobs[n].id] == jobs[n].row
  {
    assert !Among(jobs, n, jobs[n].id);
  }

  lemma SendKeepsToken(jobs: seq<Claimed>, reply: SendReply, n: nat, now: Time)
    requires n < |jobs|
    ensures SettledSends(jobs, reply, now)[n].pushToken == jobs[n].row.pushToken
  {}

  lemma CheckKeepsToken(jobs: seq<Claimed>, reply: ReceiptReply, n: nat, now: Time)
    requires n < |jobs|
    ensures SettledChecks(jobs, reply, now)[n].pushToken == jobs[n].row.pushToken
  {}

  lemma SendTaken(mid: Database, jobs: seq<Claimed>, reply: SendReply, n: nat, now: Time)
    requires n < |jobs| && jobs[n].row.status == Sending
    requires jobs[n].id in mid.jobs && mid.jobs[jobs[n].id] == jobs[n].row
    ensures
      var next := ApplySend(mid, SendResults(jobs, reply, now)[n], now);
      AnswerTaken(mid, next, jobs[n].id, SettledSends(jobs, reply, now)[n],
                  RevokedToken(jobs[n].row, AnswersToSends(jobs, reply)[n]), now)
  {
    SendSettles(mid, jobs[n].id, AnswersToSends(jobs, reply)[n], now);
  }

  lemma NextSend(db: Database, mid: Database, jobs: seq<Claimed>, reply: SendReply, n: nat, now: Time)
    requires n < |jobs| && RowsOf(db, jobs, Sending)
    requires SettledUpTo(db, mid, jobs, AnswersToSends(jobs, reply), SettledSends(jobs, reply, now), n, now)
    ensures
      var next := ApplySend(mid, SendResults(jobs, reply, now)[n], now);
      NextRecorded(mid, next, jobs, AnswersToSends(jobs, reply), SettledSends(jobs, reply, now), n, now)
  {
    NextRow(db, mid, jobs, AnswersToSends(jobs, reply), SettledSends(jobs, reply, now), n, Sending, now);
    if !Overtaken(jobs, AnswersToSends(jobs, reply), n) {
      SendTaken(mid, jobs, reply, n, now);
    }
  }

  lemma ApplySendsFrom(db: Database, results: seq<SendResult>, n: nat, now: Time)
    requires n <= |results|
    ensures ApplySends(db, results[n..], now)
         == if n == |results| then db else ApplySends(ApplySend(db, results[n], now), results[n + 1..], now)
  {
    assert n < |results| ==> results[n..][1..] == results[n + 1..];
  }

  lemma SendsSettleNext(
      db: Database, mid: Database, jobs: seq<Claimed>, reply: SendReply, n: nat, m: nat, now: Time)
    requires m == n + 1 && n < |jobs| && RowsOf(db, jobs, Sending)
    requires SettledUpTo(db, mid, jobs, AnswersToSends(jobs, reply), SettledSends(jobs, reply, now), n, now)
    ensures
      var next := ApplySend(mid, SendResults(jobs, reply, now)[n], now);
      SettledUpTo(db, next, jobs, AnswersToSends(jobs, reply), SettledSends(jobs, reply, now), m, now)
  {
    NextSend(db, mid, jobs, reply, n, now);
    SendKeepsToken(jobs, reply, n, now);
    var next := ApplySend(mid, SendResults(jobs, reply, now)[n], now);
    SettleNext(db, mid, next, jobs, AnswersToSends(jobs, reply), SettledSends(jobs, reply, now), n, m, now);
  }

  lemma {:induction false} SendsSettle(
      db: Database, mid: Database, jobs: seq<Claimed>, reply: SendReply, n: nat, now: Time)
    requires n <= |jobs| && RowsOf(db, jobs, Sending)
    requires SettledUpTo(db, mid, jobs, AnswersToSends(jobs, reply), SettledSends(jobs, reply, now), n, now)
    ensures
      var after := ApplySends(mid, SendResults(jobs, reply, now)[n..], now);
      SettledUpTo(db, after, jobs, AnswersToSends(jobs, reply), SettledSends(jobs, reply, now), |jobs|, now)
    decreases |jobs| - n
  {
    var results := SendResults(jobs, reply, now);
    ApplySendsFrom(mid, results, n, now);
    if n < |jobs| {
      var next := ApplySend(mid, results[n], now);
      SendsSettleNext(db, mid, jobs, reply, n, n + 1, now);
      SendsSettle(db, next, jobs, reply, n + 1, now);
    }
  }

  lemma CheckTaken(mid: Database, jobs: seq<Claimed>, reply: ReceiptReply, n: nat, now: Time)
    requires n < |jobs| && jobs[n].row.status == ReceiptChecking
    requires jobs[n].id in mid.jobs && mid.jobs[jobs[n].id] == jobs[n].row
    ensures
      var next := ApplyReceipt(mid, ReceiptResults(jobs, reply, now)[n], now);
      AnswerTaken(mid, next, jobs[n].id, SettledChecks(jobs, reply, now)[n],
                  RevokedToken(jobs[n].row, AnswersToChecks(jobs, reply)[n]), now)
  {
    if jobs[n].row.ticket.Some? {
      CheckSettles(mid, jobs[n].id, AnswersToChecks(jobs, reply)[n], now);
    } else {
      TicketlessSettles(mid, jobs[n].id, now);
    }
  }

  lemma NextCheck(db: Database, mid: Database, jobs: seq<Claimed>, reply: ReceiptReply, n: nat, now: Time)
    requires n < |jobs| && RowsOf(db, jobs, ReceiptChecking)
    requires SettledUpTo(db, mid, jobs, AnswersToChecks(jobs, reply), SettledChecks(jobs, reply, now), n, now)
    ensures
      var next := ApplyReceipt(mid, ReceiptResults(jobs, reply, now)[n], now);
      NextRecorded(mid, next, jobs, AnswersToChecks(jobs, reply), SettledChecks(jobs, reply, now), n, now)
  {
    NextRow(db, mid, jobs, AnswersToChecks(jobs, reply), SettledChecks(jobs, reply, now), n, ReceiptChecking, now);
    if !Overtaken(jobs, AnswersToChecks(jobs, reply), n) {
      CheckTaken(mid, jobs, reply, n, now);
    }
  }

  lemma ApplyReceiptsFrom(db: Database, results: seq<ReceiptResult>, n: nat, now: Time)
    requires n <= |results|
    ensures ApplyReceipts(db, results[n..], now)
         == if n == |results| then db else ApplyReceipts(ApplyReceipt(db, results[n], now), results[n + 1..], now)
  {
    assert n < |results| ==> results[n..][1..] == results[n + 1..];
  }

  lemma ChecksSettleNext(
      db: Database, mid: Database, jobs: seq<Claimed>, reply: ReceiptReply, n: nat, m: nat, now: Time)
    requires m == n + 1 && n < |jobs| && RowsOf(db, jobs, ReceiptChecking)
    requires SettledUpTo(db, mid, jobs, AnswersToChecks(jobs, reply), SettledChecks(jobs, reply, now), n, now)
    ensures
      var next := ApplyReceipt(mid, ReceiptResults(jobs, reply, now)[n], now);
      SettledUpTo(db, next, jobs, AnswersToChecks(jobs, reply), SettledChecks(jobs, reply, now), m, now)
  {
    NextCheck(db, mid, jobs, reply, n, now);
    CheckKeepsToken(jobs, reply, n, now);
    var next := ApplyReceipt(mid, ReceiptResults(jobs, reply, now)[n], now);
    SettleNext(db, mid, next, jobs, AnswersToChecks(jobs, reply), SettledChecks(jobs, reply, now), n, m, now);
  }

  lemma {:induction false} ChecksSettle(
      db: Database, mid: Database, jobs: seq<Claimed>, reply: ReceiptReply, n: nat, now: Time)
    requires n <= |jobs| && RowsOf(db, jobs, ReceiptChecking)
    requires SettledUpTo(db, mid, jobs, AnswersToChecks(jobs, reply), SettledChecks(jobs, reply, now), n, now)
    ensures
      var after := ApplyReceipts(mid, ReceiptResults(jobs, reply, now)[n..], now);
      SettledUpTo(db, after, jobs, AnswersToChecks(jobs, reply), SettledChecks(jobs, reply, now), |jobs|, now)
    decreases |jobs| - n
  {
    var results := ReceiptResults(jobs, reply, now);
    ApplyReceiptsFrom(mid, results, n, now);
    if n < |jobs| {
      var next := ApplyReceipt(mid, results[n], now);
      ChecksSettleNext(db, mid, jobs, reply, n, n + 1, now);
      ChecksSettle(db, next, jobs, reply, n + 1, now);
    }
  }

  lemma AllSendsSettle(db: Database, jobs: seq<Claimed>, reply: SendReply, now: Time)
    requires RowsOf(db, jobs, Sending)
    ensures
      var after := ApplySends(db, SendResults(jobs, reply, now), now);
      SettledUpTo(db, after, jobs, AnswersToSends(jobs, reply), SettledSends(jobs, reply, now), |jobs|, now)
  {
    assert SettledUpTo(db, db, jobs, AnswersToSends(jobs, reply), SettledSends(jobs, reply, now), 0, now);
    SendsSettle(db, db, jobs, reply, 0, now);
    assert SendResults(jobs, reply, now)[0..] == SendResults(jobs, reply, now);
  }

  lemma AllChecksSettle(db: Database, jobs: seq<Claimed>, reply: ReceiptReply, now: Time)
    requires RowsOf(db, jobs, ReceiptChecking)
    ensures
      var after := ApplyReceipts(db, ReceiptResults(jobs, reply, now), now);
      SettledUpTo(db, after, jobs, AnswersToChecks(jobs, reply), SettledChecks(jobs, reply, now), |jobs|, now)
  {
    assert SettledUpTo(db, db, jobs, AnswersToChecks(jobs, reply), SettledChecks(jobs, reply, now), 0, now);
    ChecksSettle(db, db, jobs, reply, 0, now);
    assert ReceiptResults(jobs, reply, now)[0..] == ReceiptResults(jobs, reply, now);
  }

  /** What a send batch owes: each claimed row is the old one with one more attempt, and ends as its own
      answer says; the tokens that answers revoke go, and no other job or token changes. */
  ghost predicate SendBatchAnswer(before: Database, after: Database, jobs: seq<Claimed>, reply: SendReply, now: Time) {
    && Distinct(jobs)
    && (forall i :: 0 <= i < |jobs| ==>
          jobs[i].id in before.jobs && IsSendClaim(before.jobs[jobs[i].id], jobs[i].row, now))
    && SettledUpTo(before, after, jobs, AnswersToSends(jobs, reply), SettledSends(jobs, reply, now), |jobs|, now)
  }

  predicate IsSendClaim(u: Job, row: Job, now: Time) {
    row == u.(status := Sending, sendAttempts := u.sendAttempts + 1, lease := Some(now + MINUTE_MS))
  }

  ghost predicate ReceiptBatchAnswer(
    before: Database, after: Database, jobs: seq<Claimed>, reply: ReceiptReply, now: Time)
  {
    && Distinct(jobs)
    && (forall i :: 0 <= i < |jobs| ==>
          jobs[i].id in before.jobs && IsReceiptClaim(before.jobs[jobs[i].id], jobs[i].row, now))
    && SettledUpTo(before, after, jobs, AnswersToChecks(jobs, reply), SettledChecks(jobs, reply, now), |jobs|, now)
  }

  predicate IsReceiptClaim(u: Job, row: Job, now: Time) {
    row == u.(status := ReceiptChecking, receiptAttempts := u.receiptAttempts + 1, lease := Some(now + MINUTE_MS))
  }

  /** Jobs outside the batch are the same before and after the claim. */
  lemma SettledFromBefore(
      before: Database, db: Database, after: Database, jobs: seq<Claimed>, answers: seq<Option<Answer>>,
      settled: seq<Job>, now: Time)
    requires |jobs| == |answers| == |settled| && SettledUpTo(db, after, jobs, answers, settled, |jobs|, now)
    requires db.jobs.Keys == before.jobs.Keys && db.tokens == before.tokens && db.notifications == before.notifications
    requires forall j :: j in before.jobs && !Among(jobs, |jobs|, j) ==> db.jobs[j] == before.jobs[j]
    ensures SettledUpTo(before, after, jobs, answers, settled, |jobs|, now)
  {}

  // ------------------------------------------------------------------ the summary

  lemma {:induction false} CountIsSize<T>(items: seq<T>, wanted: T -> bool, which: set<int>)
    requires forall i :: i in which <==> 0 <= i < |items| && wanted(items[i])
    ensures Count(items, wanted) == |which|
    decreases |items|
  {
    if items == [] {
      if which != {} {
        var i := Member(which);
        assert false;
      }
    } else {
      var last := |items| - 1;
      CountIsSize(items[..last], wanted, which - {last});
      if last in which {
        assert |which| == |which - {last}| + 1;
      } else {
        assert which - {last} == which;
      }
    }
  }

  /** The jobs that their own answers leave with one of the statuses. */
  function EndedAs(settled: seq<Job>, statuses: set<PushStatus>): set<int> {
    set i | 0 <= i < |settled| && settled[i].status in statuses
  }

  lemma SendsCounted(jobs: seq<Claimed>, reply: SendReply, now: Time, hasMore: bool)
    ensures
      var settled := SettledSends(jobs, reply, now);
      SummarizeSends(SendResults(jobs, reply, now), hasMore)
        == Summary(|jobs|, |EndedAs(settled, {ReceiptPending})|, |EndedAs(settled, {Queued})|,
                   |EndedAs(settled, {FailedPermanent, Exhausted})|, hasMore)
  {
    var results, settled := SendResults(jobs, reply, now), SettledSends(jobs, reply, now);
    forall i | 0 <= i < |jobs|
      ensures SentJob(jobs[i].row, results[i].kind, now) == settled[i]
    {
      SendRuleMeets(jobs[i].row, AnswersToSends(jobs, reply)[i], now);
    }
    CountIsSize(results, (r: SendResult) => r.kind.Accepted?, EndedAs(settled, {ReceiptPending}));
    CountIsSize(results, (r: SendResult) => r.kind.RetrySend?, EndedAs(settled, {Queued}));
    CountIsSize(results, (r: SendResult) => r.kind.SendPermanent? || r.kind.SendExhausted?,
                EndedAs(settled, {FailedPermanent, Exhausted}));
  }

  lemma CheckCounted(jobs: seq<Claimed>, reply: ReceiptReply, now: Time, i: nat)
    requires i < |jobs|
    ensures
      var kind, status := ReceiptResults(jobs, reply, now)[i].kind, SettledChecks(jobs, reply, now)[i].status;
      && (kind.ReceiptDelivered? <==> status == Delivered)
      && (kind.RetryReceipt? <==> status == ReceiptPending)
      && (kind.ReceiptPermanent? || kind.ReceiptExhausted? <==> status in {FailedPermanent, Exhausted})
  {
    if jobs[i].row.ticket.Some? {
      CheckRuleMeets(jobs[i].row, AnswersToChecks(jobs, reply)[i], now);
    }
  }

  lemma ChecksCounted(jobs: seq<Claimed>, reply: ReceiptReply, now: Time, hasMore: bool)
    ensures
      var settled := SettledChecks(jobs, reply, now);
      SummarizeReceipts(ReceiptResults(jobs, reply, now), hasMore)
        == Summary(|jobs|, |EndedAs(settled, {Delivered})|, |EndedAs(settled, {ReceiptPending})|,
                   |EndedAs(settled, {FailedPermanent, Exhausted})|, hasMore)
  {
    var results, settled := ReceiptResults(jobs, reply, now), SettledChecks(jobs, reply, now);
    forall i | 0 <= i < |jobs|
      ensures results[i].kind.ReceiptDelivered? <==> settled[i].status == Delivered
      ensures results[i].kind.RetryReceipt? <==> settled[i].status == ReceiptPending
      ensures results[i].kind.ReceiptPermanent? || results[i].kind.ReceiptExhausted?
         <==> settled[i].status in {FailedPermanent, Exhausted}
    {
      CheckCounted(jobs, reply, now, i);
    }
    CountIsSize(results, (r: ReceiptResult) => r.kind.ReceiptDelivered?, EndedAs(settled, {Delivered}));
    CountIsSize(results, (r: ReceiptResult) => r.kind.RetryReceipt?, EndedAs(settled, {ReceiptPending}));
    CountIsSize(results, (r: ReceiptResult) => r.kind.ReceiptPermanent? || r.kind.ReceiptExhausted?,
                EndedAs(settled, {FailedPermanent, Exhausted}));
  }
}
