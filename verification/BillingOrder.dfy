/** Webhooks may come in any order and more than once: where the records, the balances and the ledger
    end up. */
module BillingOrder {
  import opened Common
  import opened Balances
  import opened Billing

  datatype World = World(db: Database, balances: Table)

  const EMPTY_WORLD := World(EMPTY, map[])

  function Deliver(x: World, w: Webhook): World {
    var (_, db, balances) := Delivered(x.db, x.balances, w);
    World(db, balances)
  }

  function DeliverAll(x: World, ws: seq<Webhook>): World
    decreases |ws|
  {
    if ws == [] then x else DeliverAll(Deliver(x, ws[0]), ws[1..])
  }

  // ------------------------------------------------- what balances are worth

  /** What it is worth to a user. */
  function Worth(txs: map<TransactionId, Transaction>, tx: TransactionId, user: UserId): Units {
    if tx in txs && txs[tx].identity.user == user then GrantedValue(txs, tx) else NO_UNITS
  }

  function SuperLikeWorth(txs: map<TransactionId, Transaction>, user: UserId): TransactionId -> int {
    (tx: TransactionId) => Worth(txs, tx, user).superLikes
  }

  function BoostWorth(txs: map<TransactionId, Transaction>, user: UserId): TransactionId -> int {
    (tx: TransactionId) => Worth(txs, tx, user).boosts
  }

  /** The units of the user's transactions that are now granted. */
  ghost function GrantedUnits(txs: map<TransactionId, Transaction>, user: UserId): Units {
    Units(Sum(txs.Keys, SuperLikeWorth(txs, user)), Sum(txs.Keys, BoostWorth(txs, user)))
  }

  lemma GrantedChanges(txs: map<TransactionId, Transaction>, tx: TransactionId, row: Transaction, user: UserId)
    ensures
      var after := txs[tx := row];
      Plus(GrantedUnits(after, user), Worth(txs, tx, user)) == Plus(GrantedUnits(txs, user), Worth(after, tx, user))
  {
    var after := txs[tx := row];
    SumChanges(txs.Keys, SuperLikeWorth(txs, user), after.Keys, SuperLikeWorth(after, user), tx);
    SumChanges(txs.Keys, BoostWorth(txs, user), after.Keys, BoostWorth(after, user), tx);
  }

  /** The webhook is new and moves its transaction forward. */
  predicate Advances(db: Database, w: Webhook) {
    && w.id !in db.events && w.change.ConsumableChange?
    && var t := w.change.transition;
       if t.transaction in db.transactions
       then
         && TransitionError(db.transactions[t.transaction], t).None?
         && db.transactions[t.transaction].stateAt < t.at
       else UnitsOk(t.identity.units)
  }

  function NewRow(t: Transition): Transaction { Transaction(t.identity, t.target, t.at) }

  function DeltaOf(db: Database, t: Transition): Units {
    TransitionDelta(
      if t.transaction in db.transactions then Some(db.transactions[t.transaction].state) else None,
      t.target, t.identity.units)
  }

  /** What a delivery does: it advances a transaction, or moves nothing and may note a stale event. */
  predicate Shape(x: World, after: World, w: Webhook) {
    && x.db.events.Keys <= after.db.events.Keys <= x.db.events.Keys + {w.id}
    && if Advances(x.db, w) then
         var t := w.change.transition;
         && w.id in after.db.events
         && after.db.transactions == x.db.transactions[t.transaction := NewRow(t)]
         && after.db.ledger == x.db.ledger + [Entry(w, t, t.target, DeltaOf(x.db, t), true)]
         && after.balances == Paid(x.balances, t.identity.user, DeltaOf(x.db, t))
       else
         && after.db.transactions == x.db.transactions && after.balances == x.balances
         && (after.db.ledger == x.db.ledger || StaleEntryAdded(x.db, after.db, w))
  }

  lemma ConsumableShape(x: World, w: Webhook)
    requires w.change.ConsumableChange? && w.id !in x.db.events
    ensures Shape(x, Deliver(x, w), w)
  {}

  lemma DeliveryShape(x: World, w: Webhook)
    ensures Shape(x, Deliver(x, w), w)
  {
    if w.change.ConsumableChange? && w.id !in x.db.events {
      ConsumableShape(x, w);
    }
  }

  predicate StaleEntryAdded(db: Database, after: Database, w: Webhook) {
    && w.change.ConsumableChange? && w.id !in db.events && w.id in after.events
    && var t := w.change.transition;
       && t.transaction in db.transactions && db.transactions[t.transaction].stateAt >= t.at
       && after.ledger == db.ledger + [Entry(w, t, db.transactions[t.transaction].state, NO_UNITS, false)]
  }

  /** The delta is the change of the transaction's value. */
  predicate Carries(txs: map<TransactionId, Transaction>, tx: TransactionId, row: Transaction, delta: Units) {
    && GrantedValue(txs[tx := row], tx) == Plus(GrantedValue(txs, tx), delta)
    && (tx in txs ==> txs[tx].identity == row.identity)
  }

  lemma AdvanceKeepsIdentity(db: Database, w: Webhook)
    requires Advances(db, w)
    ensures
      var t := w.change.transition;
      t.transaction in db.transactions ==> db.transactions[t.transaction].identity == t.identity
  {}

  lemma DeltaIsCarried(db: Database, w: Webhook)
    requires Advances(db, w)
    ensures
      var t := w.change.transition;
      Carries(db.transactions, t.transaction, NewRow(t), DeltaOf(db, t))
  {
    var t := w.change.transition;
    AdvanceKeepsIdentity(db, w);
    var current := if t.transaction in db.transactions then Some(db.transactions[t.transaction].state) else None;
    DeltaOfStates(current, t.target, t.identity.units);
    assert GrantedValue(db.transactions, t.transaction) == StateValue(current, t.identity.units);
    assert GrantedValue(db.transactions[t.transaction := NewRow(t)], t.transaction) == StateValue(Some(t.target), t.identity.units);
  }

  lemma PaidBalance(balances: Table, payee: UserId, delta: Units, user: UserId)
    ensures BalanceOf(Paid(balances, payee, delta), user)
         == Plus(BalanceOf(balances, user), if user == payee then delta else NO_UNITS)
  {}

  lemma WorthMoves(
      txs: map<TransactionId, Transaction>, tx: TransactionId, row: Transaction, delta: Units, user: UserId)
    requires Carries(txs, tx, row, delta)
    ensures user == row.identity.user ==> Worth(txs[tx := row], tx, user) == Plus(Worth(txs, tx, user), delta)
    ensures user != row.identity.user ==> Worth(txs[tx := row], tx, user) == Worth(txs, tx, user)
  {
    if user == row.identity.user && tx in txs {
    } else if user == row.identity.user {
    }
  }

  lemma MovePays(
      balances: Table, txs: map<TransactionId, Transaction>, tx: TransactionId, row: Transaction, delta: Units,
      user: UserId)
    requires Carries(txs, tx, row, delta)
    ensures
      Plus(BalanceOf(Paid(balances, row.identity.user, delta), user), GrantedUnits(txs, user))
        == Plus(BalanceOf(balances, user), GrantedUnits(txs[tx := row], user))
  {
    PaidBalance(balances, row.identity.user, delta, user);
    GrantedChanges(txs, tx, row, user);
    WorthMoves(txs, tx, row, delta, user);
    var balance, granted, granted' := BalanceOf(balances, user), GrantedUnits(txs, user), GrantedUnits(txs[tx := row], user);
    var worth, worth' := Worth(txs, tx, user), Worth(txs[tx := row], tx, user);
    if user == row.identity.user {
      PaidChange(balance, granted, granted', worth, worth', delta);
    } else {
      PlusLaws(worth, NO_UNITS, NO_UNITS);
      PaidChange(balance, granted, granted', worth, worth', NO_UNITS);
    }
  }

  /** A webhook changes a user's balance by exactly what it changes the user's granted units by. */
  lemma DeliveryPaysItsWorth(x: World, after: World, w: Webhook, user: UserId)
    requires Shape(x, after, w)
    ensures
      Plus(BalanceOf(after.balances, user), GrantedUnits(x.db.transactions, user))
        == Plus(BalanceOf(x.balances, user), GrantedUnits(after.db.transactions, user))
  {
    if Advances(x.db, w) {
      var t := w.change.transition;
      DeltaIsCarried(x.db, w);
      MovePays(x.balances, x.db.transactions, t.transaction, NewRow(t), DeltaOf(x.db, t), user);
    }
  }

  ghost predicate BalancesMatch(x: World) {
    forall user :: BalanceOf(x.balances, user) == GrantedUnits(x.db.transactions, user)
  }

  lemma {:induction false} BalancesStayMatched(x: World, ws: seq<Webhook>)
    requires BalancesMatch(x)
    ensures BalancesMatch(DeliverAll(x, ws))
    decreases |ws|
  {
    if ws != [] {
      DeliveryShape(x, ws[0]);
      forall user
        ensures BalanceOf(Deliver(x, ws[0]).balances, user) == GrantedUnits(Deliver(x, ws[0]).db.transactions, user)
      {
        DeliveryPaysItsWorth(x, Deliver(x, ws[0]), ws[0], user);
      }
      BalancesStayMatched(Deliver(x, ws[0]), ws[1..]);
    }
  }

  // -------------------------------------------------------------- the ledger

  function LedgerTotal(ledger: seq<LedgerEntry>, tx: TransactionId): Units
    decreases |ledger|
  {
    if ledger == [] then NO_UNITS
    else
      var last := ledger[|ledger| - 1];
      Plus(LedgerTotal(ledger[..|ledger| - 1], tx), if last.transaction == tx then last.delta else NO_UNITS)
  }

  /** A transaction's ledger deltas add up to its units when it is granted and to nothing otherwise. */
  ghost predicate LedgerTelescopes(db: Database) {
    forall tx :: LedgerTotal(db.ledger, tx) == GrantedValue(db.transactions, tx)
  }

  /** Every applied entry moved its transaction to a later time, and an entry that was not moved nothing. */
  ghost predicate LedgerIsOrdered(db: Database) {
    && (forall i :: 0 <= i < |db.ledger| ==>
          var e := db.ledger[i];
          && e.transaction in db.transactions && e.at <= db.transactions[e.transaction].stateAt
          && e.event in db.events
          && (if e.applied then e.effective == e.requested else e.delta == NO_UNITS))
    && (forall i, j :: 0 <= i < j < |db.ledger| ==>
          && db.ledger[i].event != db.ledger[j].event
          && (db.ledger[i].transaction == db.ledger[j].transaction && db.ledger[j].applied ==>
                db.ledger[i].at < db.ledger[j].at))
  }

  ghost predicate LedgerOk(db: Database) { LedgerTelescopes(db) && LedgerIsOrdered(db) }

  lemma LedgerGrows(ledger: seq<LedgerEntry>, entry: LedgerEntry, tx: TransactionId)
    ensures LedgerTotal(ledger + [entry], tx)
         == if entry.transaction == tx then Plus(LedgerTotal(ledger, tx), entry.delta) else LedgerTotal(ledger, tx)
  {
    assert (ledger + [entry])[..|ledger|] == ledger;
    PlusLaws(LedgerTotal(ledger, tx), NO_UNITS, NO_UNITS);
  }

  lemma OthersKeepTheirValue(
      txs: map<TransactionId, Transaction>, id: TransactionId, row: Transaction, tx: TransactionId)
    requires tx != id
    ensures GrantedValue(txs[id := row], tx) == GrantedValue(txs, tx)
  {}

  /** An entry that carries its transaction's change of value keeps the ledger telescoping. */
  lemma EntryTelescopes(
      ledger: seq<LedgerEntry>, txs: map<TransactionId, Transaction>, entry: LedgerEntry, row: Transaction,
      tx: TransactionId)
    requires LedgerTotal(ledger, tx) == GrantedValue(txs, tx)
    requires Carries(txs, entry.transaction, row, entry.delta)
    ensures LedgerTotal(ledger + [entry], tx) == GrantedValue(txs[entry.transaction := row], tx)
  {
    LedgerGrows(ledger, entry, tx);
    if tx != entry.transaction {
      OthersKeepTheirValue(txs, entry.transaction, row, tx);
    }
  }

  lemma AdvanceTelescopes(db: Database, w: Webhook, tx: TransactionId)
    requires LedgerTotal(db.ledger, tx) == GrantedValue(db.transactions, tx) && Advances(db, w)
    ensures
      var t := w.change.transition;
      LedgerTotal(db.ledger + [Entry(w, t, t.target, DeltaOf(db, t), true)], tx)
        == GrantedValue(db.transactions[t.transaction := NewRow(t)], tx)
  {
    var t := w.change.transition;
    DeltaIsCarried(db, w);
    EntryTelescopes(db.ledger, db.transactions, Entry(w, t, t.target, DeltaOf(db, t), true), NewRow(t), tx);
  }

  lemma DeliveryTelescopes(x: World, after: World, w: Webhook, tx: TransactionId)
    requires LedgerTelescopes(x.db) && Shape(x, after, w)
    ensures LedgerTotal(after.db.ledger, tx) == GrantedValue(after.db.transactions, tx)
  {
    assert LedgerTotal(x.db.ledger, tx) == GrantedValue(x.db.transactions, tx);
    if Advances(x.db, w) {
      AdvanceTelescopes(x.db, w, tx);
    } else if after.db.ledger != x.db.ledger {
      LedgerGrows(x.db.ledger, after.db.ledger[|x.db.ledger|], tx);
      PlusLaws(LedgerTotal(x.db.ledger, tx), NO_UNITS, NO_UNITS);
    }
  }

  lemma DeliveryOrders(x: World, after: World, w: Webhook)
    requires LedgerIsOrdered(x.db) && Shape(x, after, w)
    ensures LedgerIsOrdered(after.db)
  {}

  /** Over every run of webhooks, consistent or not: balances are worth what is granted, and the ledger
      accounts for it transaction by transaction. */
  lemma LedgerAndBalancesAgree(ws: seq<Webhook>)
    ensures BalancesMatch(DeliverAll(EMPTY_WORLD, ws)) && LedgerOk(DeliverAll(EMPTY_WORLD, ws).db)
  {
    BalancesStayMatched(EMPTY_WORLD, ws);
    LedgerStaysOk(EMPTY_WORLD, ws);
  }

  lemma {:induction false} LedgerStaysOk(x: World, ws: seq<Webhook>)
    requires LedgerOk(x.db)
    ensures LedgerOk(DeliverAll(x, ws).db)
    decreases |ws|
  {
    if ws != [] {
      var after := Deliver(x, ws[0]);
      DeliveryShape(x, ws[0]);
      forall tx
        ensures LedgerTotal(after.db.ledger, tx) == GrantedValue(after.db.transactions, tx)
      {
        DeliveryTelescopes(x, after, ws[0], tx);
      }
      DeliveryOrders(x, after, ws[0]);
      LedgerStaysOk(Deliver(x, ws[0]), ws[1..]);
    }
  }

  // ---------------------------------------------------- order does not matter

  predicate Agree(v: Webhook, w: Webhook) {
    && (v.id == w.id ==> v == w)
    && (v.change.ConsumableChange? && w.change.ConsumableChange? ==>
          var s, t := v.change.transition, w.change.transition;
          s.transaction == t.transaction ==> s.identity == t.identity && (s.at == t.at ==> s.target == t.target))
  }

  /** One event an id, one identity a transaction, one state a transaction and moment. */
  ghost predicate Consistent(ws: set<Webhook>) { forall v, w :: v in ws && w in ws ==> Agree(v, w) }

  /** Events without units that the transactions table accepts are always refused, and leave nothing. */
  predicate Bookable(w: Webhook) { w.change.ConsumableChange? ==> UnitsOk(w.change.transition.identity.units) }

  function Booked(ws: set<Webhook>): set<Webhook> { set w | w in ws && Bookable(w) }

  predicate Moves(w: Webhook, tx: TransactionId) {
    w.change.ConsumableChange? && w.change.transition.transaction == tx
  }

  /** The records show, for every transaction, the newest of the delivered events. */
  ghost predicate Reflects(db: Database, ws: set<Webhook>) {
    && (forall w :: w in ws ==> w.id in db.events && db.events[w.id] == w.hash)
    && (forall id :: id in db.events ==> exists w :: w in ws && w.id == id)
    && (forall w :: w in ws && w.change.ConsumableChange? ==>
          var t := w.change.transition;
          && t.transaction in db.transactions
          && db.transactions[t.transaction].stateAt >= t.at)
    && (forall tx :: tx in db.transactions ==> exists w :: w in ws && Moves(w, tx) && Shows(db.transactions[tx], w))
  }

  predicate Shows(row: Transaction, w: Webhook)
    requires w.change.ConsumableChange?
  {
    row == Transaction(w.change.transition.identity, w.change.transition.target, w.change.transition.at)
  }

  predicate Records(before: Database, after: Database, w: Webhook) {
    && after.events == before.events[w.id := w.hash]
    && if Advances(before, w)
       then after.transactions == before.transactions[w.change.transition.transaction := NewRow(w.change.transition)]
       else
         && after.transactions == before.transactions
         && (w.change.ConsumableChange? ==>
               var t := w.change.transition;
               t.transaction in before.transactions && before.transactions[t.transaction].stateAt >= t.at)
  }

  /** Consistent bookable events are never refused. */
  lemma DeliveryRecords(x: World, seen: set<Webhook>, w: Webhook)
    requires Reflects(x.db, seen) && Consistent(seen + {w}) && w.id !in x.db.events && Bookable(w)
    ensures Records(x.db, Deliver(x, w).db, w)
  {
    if w.change.ConsumableChange? && w.change.transition.transaction in x.db.transactions {
      var tx := w.change.transition.transaction;
      var v :| v in seen && Moves(v, tx) && Shows(x.db.transactions[tx], v);
      assert Agree(v, w);
      assert TransitionError(x.db.transactions[tx], w.change.transition).None?;
    }
  }

  lemma RecordReflects(before: Database, after: Database, seen: set<Webhook>, w: Webhook)
    requires Reflects(before, seen) && w.id !in before.events && Records(before, after, w)
    ensures Reflects(after, seen + {w})
  {
    forall id | id in after.events
      ensures exists v :: v in seen + {w} && v.id == id
    {
      if id == w.id {
        assert w in seen + {w};
      } else {
        var v :| v in seen && v.id == id;
        assert v in seen + {w};
      }
    }
    forall tx | tx in after.transactions
      ensures exists v :: v in seen + {w} && Moves(v, tx) && Shows(after.transactions[tx], v)
    {
      if Advances(before, w) && tx == w.change.transition.transaction {
        assert w in seen + {w} && Moves(w, tx);
      } else {
        var v :| v in seen && Moves(v, tx) && Shows(before.transactions[tx], v);
        assert v in seen + {w};
      }
    }
  }

  lemma BookableReflects(x: World, seen: set<Webhook>, w: Webhook)
    requires Reflects(x.db, seen) && Consistent(seen + {w}) && Bookable(w)
    ensures Reflects(Deliver(x, w).db, seen + {w})
  {
    if w.id in x.db.events {
      var v :| v in seen && v.id == w.id;
      assert Agree(v, w);
      assert seen + {w} == seen;
    } else {
      DeliveryRecords(x, seen, w);
      RecordReflects(x.db, Deliver(x, w).db, seen, w);
    }
  }

  /** A transaction that is known has units, so have all its events. */
  lemma KnownIsBookable(x: World, seen: set<Webhook>, w: Webhook)
    requires Reflects(x.db, Booked(seen)) && Consistent(seen + {w}) && w.change.ConsumableChange?
    ensures w.change.transition.transaction in x.db.transactions ==> Bookable(w)
  {
    var tx := w.change.transition.transaction;
    if tx in x.db.transactions {
      var v :| v in Booked(seen) && Moves(v, tx) && Shows(x.db.transactions[tx], v);
      assert Agree(v, w);
    }
  }

  lemma UnbookableChangesNothing(x: World, seen: set<Webhook>, w: Webhook)
    requires Reflects(x.db, Booked(seen)) && Consistent(seen + {w}) && !Bookable(w)
    ensures Deliver(x, w) == x
  {
    KnownIsBookable(x, seen, w);
  }

  lemma DeliveryReflects(x: World, seen: set<Webhook>, w: Webhook)
    requires Reflects(x.db, Booked(seen)) && Consistent(seen + {w})
    ensures Reflects(Deliver(x, w).db, Booked(seen + {w}))
  {
    if Bookable(w) {
      assert Booked(seen + {w}) == Booked(seen) + {w};
      BookableReflects(x, Booked(seen), w);
    } else {
      assert Booked(seen + {w}) == Booked(seen);
      UnbookableChangesNothing(x, seen, w);
    }
  }

  function Elements(ws: seq<Webhook>): set<Webhook> { set w | w in ws }

  lemma {:induction false} RunReflects(x: World, seen: set<Webhook>, ws: seq<Webhook>)
    requires Reflects(x.db, Booked(seen)) && Consistent(seen + Elements(ws))
    ensures Reflects(DeliverAll(x, ws).db, Booked(seen + Elements(ws)))
    decreases |ws|
  {
    if ws == [] {
      assert seen + Elements(ws) == seen;
    } else {
      assert Elements(ws) == {ws[0]} + Elements(ws[1..]);
      assert seen + Elements(ws) == seen + {ws[0]} + Elements(ws[1..]);
      DeliveryReflects(x, seen, ws[0]);
      RunReflects(Deliver(x, ws[0]), seen + {ws[0]}, ws[1..]);
    }
  }

  lemma SameTransaction(a: Database, b: Database, ws: set<Webhook>, tx: TransactionId)
    requires Reflects(a, ws) && Reflects(b, ws) && Consistent(ws) && tx in a.transactions
    ensures tx in b.transactions && a.transactions[tx] == b.transactions[tx]
  {
    var v :| v in ws && Moves(v, tx) && Shows(a.transactions[tx], v);
    assert tx in b.transactions;
    var w :| w in ws && Moves(w, tx) && Shows(b.transactions[tx], w);
    assert Agree(v, w);
  }

  lemma SameEvents(a: Database, b: Database, ws: set<Webhook>)
    requires Reflects(a, ws) && Reflects(b, ws)
    ensures a.events == b.events
  {
    forall id | id in a.events || id in b.events
      ensures id in a.events && id in b.events && a.events[id] == b.events[id]
    {
      var w :| w in ws && w.id == id;
    }
  }

  lemma SameReflection(a: Database, b: Database, ws: set<Webhook>)
    requires Reflects(a, ws) && Reflects(b, ws) && Consistent(ws)
    ensures a.events == b.events && a.transactions == b.transactions
  {
    SameEvents(a, b, ws);
    forall tx | tx in a.transactions || tx in b.transactions
      ensures tx in a.transactions && tx in b.transactions && a.transactions[tx] == b.transactions[tx]
    {
      if tx in a.transactions {
        SameTransaction(a, b, ws, tx);
      } else {
        SameTransaction(b, a, ws, tx);
      }
    }
  }

  /** Every transaction ends in the state of its newest bookable event, whatever the order of delivery. */
  lemma NewestEventWins(ws: seq<Webhook>)
    requires Consistent(Elements(ws))
    ensures Reflects(DeliverAll(EMPTY_WORLD, ws).db, Booked(Elements(ws)))
  {
    assert {} + Elements(ws) == Elements(ws);
    RunReflects(EMPTY_WORLD, {}, ws);
  }

  /** Two deliveries of the same events, in any order and with any repetition, end in the same records
      and the same balances. */
  lemma OrderDoesNotMatter(a: seq<Webhook>, b: seq<Webhook>)
    requires Elements(a) == Elements(b) && Consistent(Elements(a))
    ensures
      var x, y := DeliverAll(EMPTY_WORLD, a), DeliverAll(EMPTY_WORLD, b);
      && x.db.events == y.db.events && x.db.transactions == y.db.transactions
      && (forall user :: BalanceOf(x.balances, user) == BalanceOf(y.balances, user))
  {
    NewestEventWins(a);
    NewestEventWins(b);
    var x, y := DeliverAll(EMPTY_WORLD, a), DeliverAll(EMPTY_WORLD, b);
    SameReflection(x.db, y.db, Booked(Elements(a)));
    BalancesStayMatched(EMPTY_WORLD, a);
    BalancesStayMatched(EMPTY_WORLD, b);
  }

  // ---------------------------------------------- subscriptions: ties decide

  predicate Subscribes(w: Webhook, user: UserId) {
    w.change.SubscriptionChange? && w.change.user == user
  }

  /** `w` carries the newest subscription event of its user. */
  ghost predicate NewestFor(ws: set<Webhook>, w: Webhook, user: UserId) {
    && w in ws && Subscribes(w, user)
    && (forall v :: v in ws && Subscribes(v, user) ==> v.change.at <= w.change.at)
  }

  /** All newest subscription events of a user say the same. */
  ghost predicate TieFree(ws: set<Webhook>) {
    forall user, v, w :: NewestFor(ws, v, user) && NewestFor(ws, w, user) ==> v.change.plan == w.change.plan
  }

  predicate Holds(subscriptions: map<UserId, Subscription>, w: Webhook, user: UserId) {
    Subscribes(w, user) && user in subscriptions
    && subscriptions[user] == Subscription(w.change.plan, w.change.at)
  }

  /** Every user holds a delivered subscription, and none older than any delivered one. */
  ghost predicate SubscriptionsReflect(subscriptions: map<UserId, Subscription>, ws: set<Webhook>) {
    && (forall w :: w in ws && w.change.SubscriptionChange? ==>
          w.change.user in subscriptions && subscriptions[w.change.user].at >= w.change.at)
    && (forall user :: user in subscriptions ==> exists w :: w in ws && Holds(subscriptions, w, user))
  }

  function SubscriptionsAfter(db: Database, w: Webhook): map<UserId, Subscription> {
    if w.id in db.events || !w.change.SubscriptionChange?
       || (w.change.user in db.subscriptions && db.subscriptions[w.change.user].at >= w.change.at)
    then db.subscriptions
    else db.subscriptions[w.change.user := Subscription(w.change.plan, w.change.at)]
  }

  lemma DeliverySubscribes(x: World, w: Webhook)
    ensures Deliver(x, w).db.subscriptions == SubscriptionsAfter(x.db, w)
  {}

  lemma SubscriptionReflects(db: Database, seen: set<Webhook>, w: Webhook)
    requires SubscriptionsReflect(db.subscriptions, seen) && (w.id in db.events ==> w in seen)
    ensures SubscriptionsReflect(SubscriptionsAfter(db, w), seen + {w})
  {
    var after := SubscriptionsAfter(db, w);
    forall user | user in after
      ensures exists v :: v in seen + {w} && Holds(after, v, user)
    {
      if Holds(after, w, user) {
        assert w in seen + {w};
      } else {
        var v :| v in seen && Holds(db.subscriptions, v, user);
        assert v in seen + {w} && Holds(after, v, user);
      }
    }
  }

  lemma {:induction false} SubscriptionRun(x: World, seen: set<Webhook>, ws: seq<Webhook>)
    requires Reflects(x.db, Booked(seen)) && SubscriptionsReflect(x.db.subscriptions, seen)
    requires Consistent(seen + Elements(ws))
    ensures SubscriptionsReflect(DeliverAll(x, ws).db.subscriptions, seen + Elements(ws))
    decreases |ws|
  {
    if ws == [] {
      assert seen + Elements(ws) == seen;
    } else {
      var w := ws[0];
      assert Elements(ws) == {w} + Elements(ws[1..]);
      assert seen + Elements(ws) == seen + {w} + Elements(ws[1..]);
      if w.id in x.db.events {
        var v :| v in Booked(seen) && v.id == w.id;
        assert Agree(v, w);
      }
      DeliverySubscribes(x, w);
      SubscriptionReflects(x.db, seen, w);
      DeliveryReflects(x, seen, w);
      SubscriptionRun(Deliver(x, w), seen + {w}, ws[1..]);
    }
  }

  /** Each user ends with one of the newest subscription events. */
  lemma SubscriptionsEndNewest(ws: seq<Webhook>)
    requires Consistent(Elements(ws))
    ensures SubscriptionsReflect(DeliverAll(EMPTY_WORLD, ws).db.subscriptions, Elements(ws))
  {
    assert {} + Elements(ws) == Elements(ws);
    SubscriptionRun(EMPTY_WORLD, {}, ws);
  }

  lemma HolderIsNewest(subscriptions: map<UserId, Subscription>, ws: set<Webhook>, w: Webhook, user: UserId)
    requires SubscriptionsReflect(subscriptions, ws) && w in ws && Holds(subscriptions, w, user)
    ensures NewestFor(ws, w, user)
  {}

  lemma TieFreeAgree(a: map<UserId, Subscription>, b: map<UserId, Subscription>, ws: set<Webhook>, user: UserId)
    requires SubscriptionsReflect(a, ws) && SubscriptionsReflect(b, ws) && TieFree(ws) && user in a
    ensures user in b && a[user] == b[user]
  {
    var v :| v in ws && Holds(a, v, user);
    assert user in b;
    var w :| w in ws && Holds(b, w, user);
    HolderIsNewest(a, ws, v, user);
    HolderIsNewest(b, ws, w, user);
  }

  lemma TieFreeSubscriptionsAgree(vs: seq<Webhook>, ws: seq<Webhook>)
    requires Elements(vs) == Elements(ws) && Consistent(Elements(ws)) && TieFree(Elements(ws))
    ensures DeliverAll(EMPTY_WORLD, vs).db.subscriptions == DeliverAll(EMPTY_WORLD, ws).db.subscriptions
  {
    SubscriptionsEndNewest(vs);
    SubscriptionsEndNewest(ws);
    var a, b := DeliverAll(EMPTY_WORLD, vs).db.subscriptions, DeliverAll(EMPTY_WORLD, ws).db.subscriptions;
    forall user | user in a || user in b
      ensures user in a && user in b && a[user] == b[user]
    {
      if user in a {
        TieFreeAgree(a, b, Elements(ws), user);
      } else {
        TieFreeAgree(b, a, Elements(ws), user);
      }
    }
  }

  /** A user's newest event, delivered first, is never replaced. */
  lemma {:induction false} FirstNewestStays(x: World, ws: seq<Webhook>, user: UserId)
    requires user in x.db.subscriptions
    requires forall i :: 0 <= i < |ws| && Subscribes(ws[i], user) ==> ws[i].change.at <= x.db.subscriptions[user].at
    ensures user in DeliverAll(x, ws).db.subscriptions
    ensures DeliverAll(x, ws).db.subscriptions[user] == x.db.subscriptions[user]
    decreases |ws|
  {
    if ws != [] {
      assert Subscribes(ws[0], user) ==> ws[0].change.at <= x.db.subscriptions[user].at;
      FirstNewestStays(Deliver(x, ws[0]), ws[1..], user);
    }
  }

  lemma DeliveredFirstWins(ws: seq<Webhook>, w: Webhook, user: UserId)
    requires NewestFor(Elements(ws), w, user)
    ensures Elements([w] + ws) == Elements(ws)
    ensures
      var end := DeliverAll(EMPTY_WORLD, [w] + ws).db;
      user in end.subscriptions && end.subscriptions[user].plan == w.change.plan
  {
    assert ([w] + ws)[1..] == ws;
    forall i | 0 <= i < |ws| && Subscribes(ws[i], user)
      ensures ws[i].change.at <= w.change.at
    {
      assert ws[i] in Elements(ws);
    }
    FirstNewestStays(Deliver(EMPTY_WORLD, w), ws, user);
  }

  lemma TiesDecide(ws: seq<Webhook>) returns (vs: seq<Webhook>)
    requires !TieFree(Elements(ws))
    ensures Elements(vs) == Elements(ws)
    ensures DeliverAll(EMPTY_WORLD, vs).db.subscriptions != DeliverAll(EMPTY_WORLD, ws).db.subscriptions
  {
    var user, v, w :| NewestFor(Elements(ws), v, user) && NewestFor(Elements(ws), w, user)
                      && v.change.plan != w.change.plan;
    DeliveredFirstWins(ws, v, user);
    DeliveredFirstWins(ws, w, user);
    vs := if DeliverAll(EMPTY_WORLD, [v] + ws).db.subscriptions != DeliverAll(EMPTY_WORLD, ws).db.subscriptions
          then [v] + ws else [w] + ws;
  }

  /** The order of delivery does not matter for subscriptions exactly when no two newest events of one
      user tie with different plans: of tied events, the first delivered wins. */
  lemma SubscriptionOrderMattersOnlyForTies(ws: seq<Webhook>)
    requires Consistent(Elements(ws))
    ensures
      TieFree(Elements(ws)) <==>
      (forall vs: seq<Webhook> :: Elements(vs) == Elements(ws) ==>
         DeliverAll(EMPTY_WORLD, vs).db.subscriptions == DeliverAll(EMPTY_WORLD, ws).db.subscriptions)
  {
    if TieFree(Elements(ws)) {
      forall vs: seq<Webhook> | Elements(vs) == Elements(ws)
        ensures DeliverAll(EMPTY_WORLD, vs).db.subscriptions == DeliverAll(EMPTY_WORLD, ws).db.subscriptions
      {
        TieFreeSubscriptionsAgree(vs, ws);
      }
    } else {
      var vs := TiesDecide(ws);
    }
  }
}
