/** What webhooks are answered over whole runs: a recorded event is a duplicate ever after, and a new one is
    applied exactly when it is the newest of its transaction or its user. */
module BillingAnswers {
  import opened Common
  import opened Balances
  import opened Billing
  import opened BillingOrder

  function AnswerTo(x: World, w: Webhook): Outcome { Delivered(x.db, x.balances, w).0 }

  lemma DeliveredWorld(x: World, w: Webhook)
    ensures WebhookAnswer(x.db, Deliver(x, w).db, x.balances, Deliver(x, w).balances, w, AnswerTo(x, w))
  {
    WebhookAnswers(x.db, x.balances, w);
  }

  /** Recorded events stay recorded. */
  lemma {:induction false} EventsStay(x: World, ws: seq<Webhook>, id: EventId)
    requires id in x.db.events
    ensures id in DeliverAll(x, ws).db.events && DeliverAll(x, ws).db.events[id] == x.db.events[id]
    decreases |ws|
  {
    if ws != [] {
      DeliveredWorld(x, ws[0]);
      EventsStay(Deliver(x, ws[0]), ws[1..], id);
    }
  }

  /** Once a webhook was taken, whatever came since, the same one is answered as a duplicate, the same id with
      another payload is refused, and neither changes anything. */
  lemma RedeliveryChangesNothing(x: World, w: Webhook, between: seq<Webhook>, again: Webhook)
    requires !AnswerTo(x, w).Failed? && w.id !in x.db.events && again.id == w.id
    ensures
      var y := DeliverAll(Deliver(x, w), between);
      && Deliver(y, again) == y
      && AnswerTo(y, again)
         == if again.hash == w.hash then Duplicate else Failed("REVENUECAT_EVENT_PAYLOAD_CONFLICT")
  {
    DeliveredWorld(x, w);
    EventsStay(Deliver(x, w), between, w.id);
    DeliveredWorld(DeliverAll(Deliver(x, w), between), again);
  }

  /** No delivered event of the transaction that the tables could take is as new. */
  ghost predicate NewestOfTransaction(seen: set<Webhook>, t: Transition) {
    forall v :: v in seen && Bookable(v) && Moves(v, t.transaction) ==> v.change.transition.at < t.at
  }

  /** No delivered subscription event of the user is as new. */
  ghost predicate NewestOfUser(seen: set<Webhook>, user: UserId, at: nat) {
    forall v :: v in seen && Subscribes(v, user) ==> v.change.at < at
  }

  lemma NewerIffNewest(db: Database, seen: set<Webhook>, t: Transition)
    requires Reflects(db, Booked(seen))
    ensures Newer(db, t) <==> NewestOfTransaction(seen, t)
  {
    if t.transaction in db.transactions {
      var v :| v in Booked(seen) && Moves(v, t.transaction) && Shows(db.transactions[t.transaction], v);
      assert v in seen && Bookable(v) && v.change.transition.at == db.transactions[t.transaction].stateAt;
    }
    forall v | v in seen && Bookable(v) && Moves(v, t.transaction)
      ensures t.transaction in db.transactions && v.change.transition.at <= db.transactions[t.transaction].stateAt
    {
      assert v in Booked(seen);
    }
  }

  lemma NoConflictIfBookable(db: Database, seen: set<Webhook>, w: Webhook)
    requires Reflects(db, Booked(seen)) && Consistent(seen + {w}) && w.change.ConsumableChange?
    ensures Conflict(db, w.change.transition).Some? <==> !Bookable(w)
  {
    var tx := w.change.transition.transaction;
    if tx in db.transactions {
      var v :| v in Booked(seen) && Moves(v, tx) && Shows(db.transactions[tx], v);
      assert v in seen + {w} && w in seen + {w};
      assert Agree(v, w);
    }
  }

  predicate Newer(db: Database, t: Transition) {
    t.transaction in db.transactions ==> db.transactions[t.transaction].stateAt < t.at
  }

  /** What a new consumable event is answered, in terms of the tables that it finds. */
  lemma ConsumableAnswered(x: World, w: Webhook)
    requires w.id !in x.db.events && w.change.ConsumableChange?
    ensures
      var answer, y, t := AnswerTo(x, w), Deliver(x, w), w.change.transition;
      && (answer.Failed? <==> Conflict(x.db, t).Some?)
      && (answer.Applied? <==> Conflict(x.db, t).None? && Newer(x.db, t))
      && (answer.Stale? <==> Conflict(x.db, t).None? && !Newer(x.db, t))
      && (answer.Failed? ==> y == x)
      && (!answer.Failed? ==>
            TransitionAnswer(x.db.(events := y.db.events), y.db, x.balances, y.balances, w, t, answer))
  {
    var y := Deliver(x, w);
    DeliveredWorld(x, w);
    assert Conflict(x.db.(events := y.db.events), w.change.transition) == Conflict(x.db, w.change.transition);
  }

  lemma AnswerShown(x: World, w: Webhook)
    requires w.id !in x.db.events && w.change.ConsumableChange?
    ensures
      var answer, y, t := AnswerTo(x, w), Deliver(x, w), w.change.transition;
      answer.Applied? || answer.Stale? ==>
        t.transaction in y.db.transactions && answer.effective == Some(y.db.transactions[t.transaction].state)
  {
    ConsumableAnswered(x, w);
  }

  lemma AnswerPaid(x: World, w: Webhook)
    requires w.id !in x.db.events && w.change.ConsumableChange?
    ensures
      var answer, y, t := AnswerTo(x, w), Deliver(x, w), w.change.transition;
      BalanceOf(y.balances, t.identity.user)
        == if answer.Applied? then Plus(BalanceOf(x.balances, t.identity.user), answer.delta)
           else BalanceOf(x.balances, t.identity.user)
  {
    ConsumableAnswered(x, w);
  }

  /** After any consistent deliveries a new consumable event fails if and only if it carries no units that the
      tables take, is applied if and only if it is the newest of its transaction, and is stale otherwise; the
      answer names the state that the transaction then shows, and moves its owner's balance by the delta. */
  lemma ConsumableAppliedIffNewest(ws: seq<Webhook>, w: Webhook)
    requires Consistent(Elements(ws) + {w}) && w.change.ConsumableChange?
    ensures
      var x, t := DeliverAll(EMPTY_WORLD, ws), w.change.transition;
      var answer, y := AnswerTo(x, w), Deliver(x, w);
      w.id !in x.db.events ==>
        && (answer.Failed? <==> !Bookable(w))
        && (answer.Failed? ==> y == x)
        && (answer.Applied? <==> Bookable(w) && NewestOfTransaction(Elements(ws), t))
        && (answer.Stale? <==> Bookable(w) && !NewestOfTransaction(Elements(ws), t))
        && (answer.Applied? || answer.Stale? ==>
              t.transaction in y.db.transactions && answer.effective == Some(y.db.transactions[t.transaction].state))
        && BalanceOf(y.balances, t.identity.user)
           == if answer.Applied? then Plus(BalanceOf(x.balances, t.identity.user), answer.delta)
              else BalanceOf(x.balances, t.identity.user)
  {
    var x, t := DeliverAll(EMPTY_WORLD, ws), w.change.transition;
    NewestEventWins(ws) by {
      assert forall v, u :: v in Elements(ws) && u in Elements(ws) ==> v in Elements(ws) + {w} && u in Elements(ws) + {w};
    }
    if w.id !in x.db.events {
      ConsumableAnswered(x, w);
      AnswerShown(x, w);
      AnswerPaid(x, w);
      NewerIffNewest(x.db, Elements(ws), t);
      NoConflictIfBookable(x.db, Elements(ws), w);
    }
  }

  /** And a new subscription event is applied if and only if it is the newest of its user. */
  lemma SubscriptionAppliedIffNewest(ws: seq<Webhook>, w: Webhook)
    requires Consistent(Elements(ws)) && w.change.SubscriptionChange?
    ensures
      var x := DeliverAll(EMPTY_WORLD, ws);
      w.id !in x.db.events ==>
        AnswerTo(x, w) == if NewestOfUser(Elements(ws), w.change.user, w.change.at)
                          then Applied(None, NO_UNITS) else Stale(None)
  {
    var x, user := DeliverAll(EMPTY_WORLD, ws), w.change.user;
    SubscriptionsEndNewest(ws);
    DeliveredWorld(x, w);
    if user in x.db.subscriptions {
      var v :| v in Elements(ws) && Holds(x.db.subscriptions, v, user);
      assert Subscribes(v, user) && v.change.at == x.db.subscriptions[user].at;
    }
    assert NewestOfUser(Elements(ws), user, w.change.at)
      <==> (user in x.db.subscriptions ==> x.db.subscriptions[user].at < w.change.at);
  }
}
