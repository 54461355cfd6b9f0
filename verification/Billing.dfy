/** RevenueCat webhooks: recorded once, applied by the newest event time, and kept in a ledger. */
module Billing {
  import opened Common
  import opened Balances

  type EventId = int
  type TransactionId = int

  datatype State = Granted | Refunded

  datatype Identity = Identity(
    user: UserId, original: string, canonicalProduct: string, providerProduct: string, units: Units)

  datatype Transaction = Transaction(identity: Identity, state: State, stateAt: nat)

  datatype Transition = Transition(transaction: TransactionId, identity: Identity, at: nat, target: State)

  datatype Plan = Plan(planId: string, status: string, customer: string, product: string, startsAt: Time, endsAt: Option<Time>)

  datatype Subscription = Subscription(plan: Plan, at: nat)

  datatype Change =
    | NoChange
    | SubscriptionChange(user: UserId, plan: Plan, at: nat)
    | ConsumableChange(transition: Transition)

  datatype Webhook = Webhook(id: EventId, hash: string, change: Change)

  datatype LedgerEntry = LedgerEntry(
    event: EventId, transaction: TransactionId, at: nat, requested: State, effective: State, delta: Units, applied: bool)

  datatype Database = Database(
    events: map<EventId, string>,
    transactions: map<TransactionId, Transaction>,
    ledger: seq<LedgerEntry>,
    subscriptions: map<UserId, Subscription>)

  const EMPTY := Database(map[], map[], [], map[])

  datatype Outcome =
    | Applied(effective: Option<State>, delta: Units)
    | Stale(effective: Option<State>)
    | Duplicate
    | Failed(code: string)

  // --------------------------------------------------------- one transition

  function IdentityError(current: Identity, wanted: Identity): Option<string> {
    if current.user != wanted.user then Some("REVENUECAT_TRANSACTION_OWNER_CONFLICT")
    else if current.original != wanted.original || current.canonicalProduct != wanted.canonicalProduct
            || current.providerProduct != wanted.providerProduct then Some("REVENUECAT_TRANSACTION_PRODUCT_CONFLICT")
    else if current.units != wanted.units then Some("REVENUECAT_TRANSACTION_UNITS_CONFLICT")
    else None
  }

  function TransitionError(current: Transaction, t: Transition): Option<string> {
    var identity := IdentityError(current.identity, t.identity);
    if identity.Some? then identity
    else if current.stateAt == t.at && current.state != t.target then Some("REVENUECAT_EVENT_TIMESTAMP_CONFLICT")
    else None
  }

  /** The check constraints revenuecat_transactions_units_nonnegative and revenuecat_transactions_units_present
      refuse to insert anything else. */
  predicate UnitsOk(units: Units) {
    units.superLikes >= 0 && units.boosts >= 0 && (units.superLikes > 0 || units.boosts > 0)
  }

  function TransitionDelta(current: Option<State>, target: State, units: Units): Units {
    if current == Some(target) then NO_UNITS
    else if target == Granted then units
    else if current == Some(Granted) then Negated(units)
    else NO_UNITS
  }

  function Entry(w: Webhook, t: Transition, effective: State, delta: Units, applied: bool): LedgerEntry {
    LedgerEntry(w.id, t.transaction, t.at, t.target, effective, delta, applied)
  }

  function Paid(balances: Table, user: UserId, delta: Units): Table {
    if delta == NO_UNITS then balances else Credited(balances, user, delta)
  }

  /** Apply a consumable transition; the event has just been recorded. */
  function Transitioned(db: Database, balances: Table, w: Webhook, t: Transition): (Outcome, Database, Table) {
    var known := t.transaction in db.transactions;
    if known && TransitionError(db.transactions[t.transaction], t).Some? then
      (Failed(TransitionError(db.transactions[t.transaction], t).value), db, balances)
    else if known && db.transactions[t.transaction].stateAt >= t.at then
      var effective := db.transactions[t.transaction].state;
      (Stale(Some(effective)), db.(ledger := db.ledger + [Entry(w, t, effective, NO_UNITS, false)]), balances)
    else if !known && !UnitsOk(t.identity.units) then (Failed("revenuecat_transactions_units"), db, balances)
    else
      var delta := TransitionDelta(
        if known then Some(db.transactions[t.transaction].state) else None, t.target, t.identity.units);
      (Applied(Some(t.target), delta),
       db.(transactions := db.transactions[t.transaction := Transaction(t.identity, t.target, t.at)],
           ledger := db.ledger + [Entry(w, t, t.target, delta, true)]),
       Paid(balances, t.identity.user, delta))
  }

  function Subscribed(db: Database, user: UserId, plan: Plan, at: nat): (Outcome, Database) {
    if user in db.subscriptions && db.subscriptions[user].at >= at then (Stale(None), db)
    else (Applied(None, NO_UNITS), db.(subscriptions := db.subscriptions[user := Subscription(plan, at)]))
  }

  /** The whole transaction; a failure leaves nothing behind, not even the recorded event. */
  function Delivered(db: Database, balances: Table, w: Webhook): (Outcome, Database, Table) {
    if w.id in db.events then
      (if db.events[w.id] == w.hash then Duplicate else Failed("REVENUECAT_EVENT_PAYLOAD_CONFLICT"), db, balances)
    else
      var recorded := db.(events := db.events[w.id := w.hash]);
      match w.change
      case NoChange => (Applied(None, NO_UNITS), recorded, balances)
      case SubscriptionChange(user, plan, at) =>
        var (outcome, after) := Subscribed(recorded, user, plan, at);
        (outcome, after, balances)
      case ConsumableChange(t) =>
        var (outcome, after, paid) := Transitioned(recorded, balances, w, t);
        if outcome.Failed? then (outcome, db, balances) else (outcome, after, paid)
  }

  // ------------------------------------------------- what a webhook is owed

  /** A recorded id is a duplicate if the payload is the recorded one, and is refused otherwise; either way
      nothing changes. */
  predicate SeenAnswer(db: Database, after: Database, balances: Table, paid: Table, w: Webhook, outcome: Outcome)
    requires w.id in db.events
  {
    && outcome == (if w.hash == db.events[w.id] then Duplicate else Failed("REVENUECAT_EVENT_PAYLOAD_CONFLICT"))
    && after == db && paid == balances
  }

  /** A new subscription event is applied if and only if it is newer than what its user has. */
  predicate SubscriptionAnswer(
    db: Database, after: Database, user: UserId, plan: Plan, at: nat, outcome: Outcome)
  {
    var newer := user in db.subscriptions ==> db.subscriptions[user].at < at;
    && outcome == (if newer then Applied(None, NO_UNITS) else Stale(None))
    && after.transactions == db.transactions && after.ledger == db.ledger
    && after.subscriptions == if newer then db.subscriptions[user := Subscription(plan, at)] else db.subscriptions
  }

  /** Why a transition is refused: another owner, product or number of units, the same moment with another
      state, or units that the table does not accept. */
  function Conflict(db: Database, t: Transition): Option<string> {
    if t.transaction in db.transactions then
      var row := db.transactions[t.transaction];
      if row.identity.user != t.identity.user then Some("REVENUECAT_TRANSACTION_OWNER_CONFLICT")
      else if row.identity.(user := t.identity.user, units := t.identity.units) != t.identity then
        Some("REVENUECAT_TRANSACTION_PRODUCT_CONFLICT")
      else if row.identity.units != t.identity.units then Some("REVENUECAT_TRANSACTION_UNITS_CONFLICT")
      else if t.at == row.stateAt && t.target != row.state then Some("REVENUECAT_EVENT_TIMESTAMP_CONFLICT")
      else None
    else if t.identity.units.superLikes < 0 || t.identity.units.boosts < 0 || t.identity.units == NO_UNITS then
      Some("revenuecat_transactions_units")
    else None
  }

  /** What a transaction is worth while it is granted. */
  function GrantedValue(transactions: map<TransactionId, Transaction>, tx: TransactionId): Units {
    if tx in transactions && transactions[tx].state == Granted then transactions[tx].identity.units else NO_UNITS
  }

  /** The transaction shows the transition, and the delta, by which the owner's balance moves and which the
      ledger records, is the change of the transaction's worth. */
  predicate AppliedAnswer(
    db: Database, after: Database, balances: Table, paid: Table, w: Webhook, t: Transition, delta: Units)
  {
    && after.subscriptions == db.subscriptions && after.events == db.events
    && after.transactions == db.transactions[t.transaction := Transaction(t.identity, t.target, t.at)]
    && after.ledger == db.ledger + [LedgerEntry(w.id, t.transaction, t.at, t.target, t.target, delta, true)]
    && Plus(GrantedValue(db.transactions, t.transaction), delta) == GrantedValue(after.transactions, t.transaction)
    && Moved(balances, paid, t.identity.user, delta)
  }

  /** The user's balance moves by the delta, and no other balance changes. */
  predicate Moved(balances: Table, paid: Table, user: UserId, delta: Units) {
    && BalanceOf(paid, user) == Plus(BalanceOf(balances, user), delta)
    && (forall other :: other in balances && other != user ==> other in paid && paid[other] == balances[other])
    && paid.Keys <= balances.Keys + {user}
  }

  /** Nothing moves, and the ledger notes the standing state. */
  predicate StaleAnswer(db: Database, after: Database, balances: Table, paid: Table, w: Webhook, t: Transition)
    requires t.transaction in db.transactions
  {
    && after.subscriptions == db.subscriptions && after.events == db.events && after.transactions == db.transactions
    && paid == balances
    && after.ledger == db.ledger
       + [LedgerEntry(w.id, t.transaction, t.at, t.target, db.transactions[t.transaction].state, NO_UNITS, false)]
  }

  /** A transition without a conflict is applied if and only if it is newer than its transaction's state;
      otherwise the standing state is the answer. */
  predicate TransitionAnswer(
    db: Database, after: Database, balances: Table, paid: Table, w: Webhook, t: Transition, outcome: Outcome)
  {
    if Conflict(db, t).Some? then outcome == Failed(Conflict(db, t).value) && after == db && paid == balances
    else if t.transaction in db.transactions && t.at <= db.transactions[t.transaction].stateAt then
      outcome == Stale(Some(db.transactions[t.transaction].state)) && StaleAnswer(db, after, balances, paid, w, t)
    else
      && outcome.Applied? && outcome.effective == Some(t.target)
      && AppliedAnswer(db, after, balances, paid, w, t, outcome.delta)
  }

  /** A new webhook is recorded unless it fails, and a failure leaves nothing behind. */
  predicate WebhookAnswer(db: Database, after: Database, balances: Table, paid: Table, w: Webhook, outcome: Outcome) {
    if w.id in db.events then SeenAnswer(db, after, balances, paid, w, outcome)
    else if outcome.Failed? then
      && w.change.ConsumableChange? && Conflict(db, w.change.transition) == Some(outcome.code)
      && after == db && paid == balances
    else
      && after.events == db.events[w.id := w.hash]
      && match w.change
         case NoChange =>
           outcome == Applied(None, NO_UNITS) && after == db.(events := after.events) && paid == balances
         case SubscriptionChange(user, plan, at) =>
           SubscriptionAnswer(db, after, user, plan, at, outcome) && paid == balances
         case ConsumableChange(t) =>
           Conflict(db, t).None?
           && TransitionAnswer(db.(events := after.events), after, balances, paid, w, t, outcome)
  }

  lemma ConflictIsError(db: Database, t: Transition)
    ensures Conflict(db, t)
         == if t.transaction in db.transactions then TransitionError(db.transactions[t.transaction], t)
            else if UnitsOk(t.identity.units) then None else Some("revenuecat_transactions_units")
  {}

  function StateValue(state: Option<State>, units: Units): Units { if state == Some(Granted) then units else NO_UNITS }

  lemma DeltaOfStates(current: Option<State>, target: State, units: Units)
    ensures StateValue(Some(target), units) == Plus(StateValue(current, units), TransitionDelta(current, target, units))
  {
    PlusLaws(units, NO_UNITS, NO_UNITS);
  }

  /** A transition without a conflict comes with the identity on record. */
  lemma WorthIsStateValue(db: Database, t: Transition)
    requires Conflict(db, t).None?
    ensures
      var current := if t.transaction in db.transactions then Some(db.transactions[t.transaction].state) else None;
      GrantedValue(db.transactions, t.transaction) == StateValue(current, t.identity.units)
  {}

  lemma PaidMoves(balances: Table, user: UserId, delta: Units)
    ensures Moved(balances, Paid(balances, user, delta), user, delta)
  {
    PlusLaws(BalanceOf(balances, user), NO_UNITS, NO_UNITS);
  }

  lemma AppliedAnswers(db: Database, balances: Table, w: Webhook, t: Transition)
    requires Conflict(db, t).None?
    ensures
      var current := if t.transaction in db.transactions then Some(db.transactions[t.transaction].state) else None;
      var delta := TransitionDelta(current, t.target, t.identity.units);
      var after := db.(transactions := db.transactions[t.transaction := Transaction(t.identity, t.target, t.at)],
                       ledger := db.ledger + [Entry(w, t, t.target, delta, true)]);
      AppliedAnswer(db, after, balances, Paid(balances, t.identity.user, delta), w, t, delta)
  {
    var current := if t.transaction in db.transactions then Some(db.transactions[t.transaction].state) else None;
    var delta := TransitionDelta(current, t.target, t.identity.units);
    WorthIsStateValue(db, t);
    DeltaOfStates(current, t.target, t.identity.units);
    PaidMoves(balances, t.identity.user, delta);
  }

  lemma RefusedTransition(db: Database, balances: Table, w: Webhook, t: Transition)
    requires Conflict(db, t).Some?
    ensures Transitioned(db, balances, w, t) == (Failed(Conflict(db, t).value), db, balances)
  {
    ConflictIsError(db, t);
  }

  lemma StaleTransition(db: Database, balances: Table, w: Webhook, t: Transition)
    requires Conflict(db, t).None?
    requires t.transaction in db.transactions && t.at <= db.transactions[t.transaction].stateAt
    ensures
      var (outcome, after, paid) := Transitioned(db, balances, w, t);
      outcome == Stale(Some(db.transactions[t.transaction].state)) && StaleAnswer(db, after, balances, paid, w, t)
  {
    ConflictIsError(db, t);
  }

  lemma NewerCase(db: Database, balances: Table, w: Webhook, t: Transition)
    requires Conflict(db, t).None?
    requires t.transaction in db.transactions ==> db.transactions[t.transaction].stateAt < t.at
    ensures
      var current := if t.transaction in db.transactions then Some(db.transactions[t.transaction].state) else None;
      var delta := TransitionDelta(current, t.target, t.identity.units);
      var after := db.(transactions := db.transactions[t.transaction := Transaction(t.identity, t.target, t.at)],
                       ledger := db.ledger + [Entry(w, t, t.target, delta, true)]);
      Transitioned(db, balances, w, t) == (Applied(Some(t.target), delta), after, Paid(balances, t.identity.user, delta))
  {
    ConflictIsError(db, t);
  }

  lemma NewerTransition(db: Database, balances: Table, w: Webhook, t: Transition)
    requires Conflict(db, t).None?
    requires t.transaction in db.transactions ==> db.transactions[t.transaction].stateAt < t.at
    ensures
      var (outcome, after, paid) := Transitioned(db, balances, w, t);
      outcome.Applied? && outcome.effective == Some(t.target)
      && AppliedAnswer(db, after, balances, paid, w, t, outcome.delta)
  {
    NewerCase(db, balances, w, t);
    AppliedAnswers(db, balances, w, t);
  }

  lemma TransitionAnswers(db: Database, balances: Table, w: Webhook, t: Transition)
    ensures
      var (outcome, after, paid) := Transitioned(db, balances, w, t);
      TransitionAnswer(db, after, balances, paid, w, t, outcome)
  {
    if Conflict(db, t).Some? {
      RefusedTransition(db, balances, w, t);
    } else if t.transaction in db.transactions && t.at <= db.transactions[t.transaction].stateAt {
      StaleTransition(db, balances, w, t);
    } else {
      NewerTransition(db, balances, w, t);
    }
  }

  lemma ConsumableAnswers(
      db: Database, balances: Table, w: Webhook, outcome: Outcome, after: Database, paid: Table)
    requires w.id !in db.events && w.change.ConsumableChange?
    requires TransitionAnswer(db.(events := db.events[w.id := w.hash]), after, balances, paid, w, w.change.transition, outcome)
    ensures
      if outcome.Failed? then WebhookAnswer(db, db, balances, balances, w, outcome)
      else WebhookAnswer(db, after, balances, paid, w, outcome)
  {
    assert Conflict(db.(events := db.events[w.id := w.hash]), w.change.transition) == Conflict(db, w.change.transition);
    assert outcome.Failed? || after.events == db.events[w.id := w.hash];
  }

  /** Whatever arrives, the answer says what became of it, and the tables agree. */
  lemma WebhookAnswers(db: Database, balances: Table, w: Webhook)
    ensures
      var (outcome, after, paid) := Delivered(db, balances, w);
      WebhookAnswer(db, after, balances, paid, w, outcome)
  {
    if w.id !in db.events && w.change.ConsumableChange? {
      var recorded := db.(events := db.events[w.id := w.hash]);
      var (outcome, after, paid) := Transitioned(recorded, balances, w, w.change.transition);
      TransitionAnswers(recorded, balances, w, w.change.transition);
      ConsumableAnswers(db, balances, w, outcome, after, paid);
    }
  }

  class BillingRepository {
    const balances: BalanceTable
    var events: map<EventId, string>
    var transactions: map<TransactionId, Transaction>
    var ledger: seq<LedgerEntry>
    var subscriptions: map<UserId, Subscription>

    constructor (balances: BalanceTable)
      ensures this.balances == balances && Db() == EMPTY
    {
      this.balances := balances;
      events, transactions, ledger, subscriptions := map[], map[], [], map[];
    }

    function Db(): Database
      reads this
    {
      Database(events, transactions, ledger, subscriptions)
    }

    method ApplyRevenueCatEvent(w: Webhook) returns (outcome: Outcome)
      modifies this, balances
      ensures (outcome, Db(), balances.rows) == Delivered(old(Db()), old(balances.rows), w)
      ensures WebhookAnswer(old(Db()), Db(), old(balances.rows), balances.rows, w, outcome)
    {
      WebhookAnswers(Db(), balances.rows, w);
      outcome := ApplyInTransaction(w);
    }

    method ApplyInTransaction(w: Webhook) returns (outcome: Outcome)
      modifies this, balances
      ensures (outcome, Db(), balances.rows) == Delivered(old(Db()), old(balances.rows), w)
    {
      if w.id in events {
        return if events[w.id] == w.hash then Duplicate else Failed("REVENUECAT_EVENT_PAYLOAD_CONFLICT");
      }
      var unrecorded := events;
      events := events[w.id := w.hash];
      match w.change {
        case NoChange => return Applied(None, NO_UNITS);
        case SubscriptionChange(user, plan, at) =>
          if user in subscriptions && subscriptions[user].at >= at {
            return Stale(None);
          }
          subscriptions := subscriptions[user := Subscription(plan, at)];
          return Applied(None, NO_UNITS);
        case ConsumableChange(t) =>
          outcome := ApplyConsumableTransition(w, t);
          if outcome.Failed? {
            events := unrecorded;
          }
      }
    }

    method ApplyConsumableTransition(w: Webhook, t: Transition) returns (outcome: Outcome)
      modifies this`transactions, this`ledger, balances
      ensures (outcome, Db(), balances.rows) == Transitioned(old(Db()), old(balances.rows), w, t)
    {
      var current: Option<State> := None;
      if t.transaction in transactions {
        var row := transactions[t.transaction];
        current := Some(row.state);
        var error := TransitionError(row, t);
        if error.Some? {
          return Failed(error.value);
        }
        if row.stateAt >= t.at {
          ledger := ledger + [Entry(w, t, row.state, NO_UNITS, false)];
          return Stale(current);
        }
        transactions := transactions[t.transaction := row.(state := t.target, stateAt := t.at)];
      } else if UnitsOk(t.identity.units) {
        transactions := transactions[t.transaction := Transaction(t.identity, t.target, t.at)];
      } else {
        return Failed("revenuecat_transactions_units");
      }
      var delta := TransitionDelta(current, t.target, t.identity.units);
      if delta != NO_UNITS {
        balances.Credit(t.identity.user, delta);
      }
      ledger := ledger + [Entry(w, t, t.target, delta, true)];
      return Applied(Some(t.target), delta);
    }
  }
}
