/** What the delivery workers make of the provider's answers. */
module PushRules {
  import opened Common
  import opened PushTable

  const MAX_EXPO_MESSAGES_PER_REQUEST := 100
  const EXPO_RECEIPT_DELAY_MS := 15 * MINUTE_MS
  const PUSH_LEASE_MS := MINUTE_MS
  const MAX_PUSH_SEND_ATTEMPTS := 5
  const MAX_PUSH_RECEIPT_ATTEMPTS := 8

  /** One answer of the push provider, for a message or for a ticket. */
  datatype Answer = Ok(ticket: string) | Rejected(code: Option<string>)

  /** The answers of one request: one a message in order, one a ticket id, or a failed request. */
  datatype SendReply = Tickets(tickets: seq<Answer>) | SendRequestFailed
  datatype ReceiptReply = Receipts(receipts: map<string, Answer>) | ReceiptRequestFailed

  /** A claimed row as the claim returned it. */
  datatype Claimed = Claimed(id: JobId, row: Job)

  function RetrySendKind(row: Job, now: Time): SendKind {
    if row.sendAttempts >= MAX_PUSH_SEND_ATTEMPTS then SendExhausted
    else RetrySend(now + BackoffMs(row.sendAttempts))
  }

  function TicketKind(row: Job, answer: Option<Answer>, now: Time): SendKind {
    match answer
    case None => RetrySendKind(row, now)
    case Some(Ok(ticket)) => Accepted(ticket, now + EXPO_RECEIPT_DELAY_MS)
    case Some(Rejected(code)) =>
      if code == Some("MessageRateExceeded") || code == Some("ProviderError") then RetrySendKind(row, now)
      else SendPermanent(if code == Some("DeviceNotRegistered") then row.pushToken else None)
  }

  function RetryReceiptKind(row: Job, now: Time): ReceiptKind {
    if row.receiptAttempts >= MAX_PUSH_RECEIPT_ATTEMPTS then ReceiptExhausted
    else RetryReceipt(now + BackoffMs(row.receiptAttempts))
  }

  function CheckKind(row: Job, answer: Option<Answer>, now: Time): ReceiptKind {
    match answer
    case None => RetryReceiptKind(row, now)
    case Some(Ok(_)) => ReceiptDelivered
    case Some(Rejected(code)) => ReceiptPermanent(if code == Some("DeviceNotRegistered") then row.pushToken else None)
  }

  function SendAnswer(jobs: seq<Claimed>, reply: SendReply, i: nat): Option<Answer>
    requires i < |jobs|
  {
    if reply.Tickets? && |reply.tickets| == |jobs| then Some(reply.tickets[i]) else None
  }

  function SendResults(jobs: seq<Claimed>, reply: SendReply, now: Time): seq<SendResult> {
    seq(|jobs|, i requires 0 <= i < |jobs| =>
      SendResult(jobs[i].id, jobs[i].row.sendAttempts, TicketKind(jobs[i].row, SendAnswer(jobs, reply, i), now)))
  }

  predicate AllTicketed(jobs: seq<Claimed>) { forall i :: 0 <= i < |jobs| ==> jobs[i].row.ticket.Some? }

  function ReceiptAnswer(jobs: seq<Claimed>, reply: ReceiptReply, i: nat): Option<Answer>
    requires i < |jobs|
  {
    if AllTicketed(jobs) && reply.Receipts? && jobs[i].row.ticket.value in reply.receipts
    then Some(reply.receipts[jobs[i].row.ticket.value]) else None
  }

  /** A batch holding a job without a ticket asks nothing: that job fails, the others are tried again. */
  function ReceiptKindOf(jobs: seq<Claimed>, reply: ReceiptReply, i: nat, now: Time): ReceiptKind
    requires i < |jobs|
  {
    if jobs[i].row.ticket.None? then ReceiptPermanent(None)
    else CheckKind(jobs[i].row, ReceiptAnswer(jobs, reply, i), now)
  }

  function ReceiptResults(jobs: seq<Claimed>, reply: ReceiptReply, now: Time): seq<ReceiptResult> {
    seq(|jobs|, i requires 0 <= i < |jobs| =>
      ReceiptResult(jobs[i].id, jobs[i].row.receiptAttempts, ReceiptKindOf(jobs, reply, i, now)))
  }

  datatype Summary = Summary(claimed: nat, succeeded: nat, retryScheduled: nat, permanentlyFailed: nat, hasMore: bool)

  const EMPTY_BATCH := Summary(0, 0, 0, 0, false)

  /** How many items a filter keeps. */
  function Count<T>(items: seq<T>, wanted: T -> bool): nat
    decreases |items|
  {
    if items == [] then 0
    else Count(items[..|items| - 1], wanted) + if wanted(items[|items| - 1]) then 1 else 0
  }

  function SummarizeSends(results: seq<SendResult>, hasMore: bool): Summary {
    Summary(
      |results|,
      Count(results, (r: SendResult) => r.kind.Accepted?),
      Count(results, (r: SendResult) => r.kind.RetrySend?),
      Count(results, (r: SendResult) => r.kind.SendPermanent? || r.kind.SendExhausted?),
      hasMore)
  }

  function SummarizeReceipts(results: seq<ReceiptResult>, hasMore: bool): Summary {
    Summary(
      |results|,
      Count(results, (r: ReceiptResult) => r.kind.ReceiptDelivered?),
      Count(results, (r: ReceiptResult) => r.kind.RetryReceipt?),
      Count(results, (r: ReceiptResult) => r.kind.ReceiptPermanent? || r.kind.ReceiptExhausted?),
      hasMore)
  }
}
