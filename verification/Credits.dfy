/** Billing and matching over one table of balances: what every run of webhooks, actions, undos and boosts
    keeps. */
module Credits {
  import opened Common
  import opened Balances
  import Billing
  import opened BillingOrder
  import opened Matching

  datatype System = System(billing: Billing.Database, matching: Database, balances: Table)

  const EMPTY_SYSTEM := System(Billing.EMPTY, EMPTY, map[])

  /** Requests carry their own moments, in any order; ids are drawn by the database, so they are fresh. */
  datatype Event =
    | Webhook(webhook: Billing.Webhook)
    | ActEvent(
        user: UserId, target: UserId, kind: Kind, limit: Option<nat>, now: Time, verdict: Option<string>,
        newAction: ActionId, newRoom: RoomId)
    | UndoEvent(user: UserId, action: ActionId)
    | BoostEvent(user: UserId, now: Time, newBoost: BoostId)

  function Step(s: System, e: Event): System {
    match e
    case Webhook(w) =>
      var after := Deliver(World(s.billing, s.balances), w);
      s.(billing := after.db, balances := after.balances)
    case ActEvent(user, target, kind, limit, now, verdict, newAction, newRoom) =>
      if user == target || !ActiveUnique(s.matching.actions) || newAction in s.matching.actions
         || newRoom in s.matching.rooms then s
      else
        var (_, matching, balances) :=
          Act(s.matching, s.balances, ServiceRequest(user, target, kind, limit, now, verdict), newAction, newRoom);
        s.(matching := matching, balances := balances)
    case UndoEvent(user, action) =>
      if !IsLastAction(s.matching.actions, user, action) then s
      else
        var (_, matching, balances) := Undo(s.matching, s.balances, action);
        s.(matching := matching, balances := balances)
    case BoostEvent(user, now, newBoost) =>
      if newBoost in s.matching.boosts then s
      else
        var (_, matching, balances) := Activate(s.matching, s.balances, user, now, newBoost);
        s.(matching := matching, balances := balances)
  }

  function Run(s: System, es: seq<Event>): System
    decreases |es|
  {
    if es == [] then s else Run(Step(s, es[0]), es[1..])
  }

  // ----------------------------------------------------- likes and matches

  /** Users who like each other, from the lower one's side. */
  predicate Mutual(db: Database, pair: Pair) {
    pair.low < pair.high && Edge(pair.low, pair.high) in db.likes && Edge(pair.high, pair.low) in db.likes
  }

  ghost predicate LikeHasAction(db: Database, e: Edge) {
    exists a :: a in db.actions && ActiveFor(db.actions[a], e.liker, e.liked) && db.actions[a].kind != Skip
  }

  ghost predicate ActionsOk(db: Database) {
    && ActiveUnique(db.actions)
    && (forall a :: a in db.actions ==> db.actions[a].actor != db.actions[a].target)
  }

  /** Likes are the active like and superlike actions. */
  ghost predicate LikesOk(db: Database) {
    (forall e :: e in db.likes ==> LikeHasAction(db, e)) && ActionsHaveLikes(db)
  }

  ghost predicate ActionsHaveLikes(db: Database) {
    forall a :: a in db.actions && !db.actions[a].reverted && db.actions[a].kind != Skip ==>
      Edge(db.actions[a].actor, db.actions[a].target) in db.likes
  }

  ghost predicate MatchesAreMutual(db: Database) { forall pair :: pair in db.matches <==> Mutual(db, pair) }

  /** Every match has a room of its own with exactly its two users. */
  ghost predicate RoomsOk(db: Database) {
    && (forall pair :: pair in db.matches ==>
          db.matches[pair] in db.rooms && db.rooms[db.matches[pair]] == {pair.low, pair.high})
    && (forall p, q :: p in db.matches && q in db.matches && db.matches[p] == db.matches[q] ==> p == q)
  }

  ghost predicate MatchInv(db: Database) { ActionsOk(db) && LikesOk(db) && MatchesAreMutual(db) && RoomsOk(db) }

  predicate Fresh(db: Database, r: Request, newAction: ActionId, newRoom: RoomId) {
    r.user != r.target && newAction !in db.actions && newRoom !in db.rooms
  }

  /** Nobody has acted yet, so there is no like and no match either. */
  predicate Unacted(db: Database, r: Request) {
    && (forall a :: a in db.actions ==> !ActiveFor(db.actions[a], r.user, r.target))
    && Edge(r.user, r.target) !in db.likes && PairOf(r.user, r.target) !in db.matches
  }

  lemma NoActionNoLike(db: Database, r: Request)
    requires MatchInv(db) && forall a :: a in db.actions ==> !ActiveFor(db.actions[a], r.user, r.target)
    ensures Unacted(db, r)
  {
    var e := Edge(r.user, r.target);
    assert e in db.likes ==> LikeHasAction(db, e);
    assert PairOf(r.user, r.target) in db.matches ==> Mutual(db, PairOf(r.user, r.target));
  }

  lemma ActedKeepsActions(db: Database, r: Request, newAction: ActionId, newRoom: RoomId)
    requires ActionsOk(db) && Fresh(db, r, newAction, newRoom) && Unacted(db, r)
    ensures ActionsOk(ActedOn(db, r, newAction, newRoom))
  {
    assert forall a :: a in db.actions ==> !ActiveFor(db.actions[a], r.user, r.target);
  }

  /** The tables before a match is looked for. */
  lemma ActedEffect(db: Database, r: Request, newAction: ActionId, newRoom: RoomId)
    requires Unacted(db, r)
    ensures
      var after := ActedOn(db, r, newAction, newRoom);
      && after.actions == db.actions[newAction := NewAction(r)]
      && after.likes == if r.kind == Skip then db.likes else db.likes[Edge(r.user, r.target) := r.now]
  {}

  lemma ActedLike(db: Database, after: Database, r: Request, newAction: ActionId, e: Edge)
    requires newAction !in db.actions && after.actions == db.actions[newAction := NewAction(r)]
    requires LikeHasAction(db, e) || (r.kind != Skip && e == Edge(r.user, r.target))
    ensures LikeHasAction(after, e)
  {
    if LikeHasAction(db, e) {
      var a :| a in db.actions && ActiveFor(db.actions[a], e.liker, e.liked) && db.actions[a].kind != Skip;
      assert after.actions[a] == db.actions[a];
    } else {
      assert ActiveFor(after.actions[newAction], e.liker, e.liked);
    }
  }

  lemma ActedKeepsLikes(db: Database, r: Request, newAction: ActionId, newRoom: RoomId)
    requires LikesOk(db) && Fresh(db, r, newAction, newRoom) && Unacted(db, r)
    ensures LikesOk(ActedOn(db, r, newAction, newRoom))
  {
    var after := ActedOn(db, r, newAction, newRoom);
    ActedEffect(db, r, newAction, newRoom);
    forall e | e in after.likes
      ensures LikeHasAction(after, e)
    {
      ActedLike(db, after, r, newAction, e);
    }
  }

  /** The acting user's own pair is matched exactly when the other one already likes back. */
  lemma ActedPair(db: Database, r: Request, newAction: ActionId, newRoom: RoomId)
    requires Unacted(db, r) && r.user != r.target
    ensures
      var after, pair := ActedOn(db, r, newAction, newRoom), PairOf(r.user, r.target);
      && (pair in after.matches <==> r.kind != Skip && Edge(r.target, r.user) in db.likes)
      && (Mutual(after, pair) <==> r.kind != Skip && Edge(r.target, r.user) in db.likes)
  {}

  lemma OtherMatches(db: Database, r: Request, newAction: ActionId, newRoom: RoomId, pair: Pair)
    requires pair != PairOf(r.user, r.target)
    ensures pair in ActedOn(db, r, newAction, newRoom).matches <==> pair in db.matches
  {}

  lemma OtherMutual(db: Database, r: Request, newAction: ActionId, newRoom: RoomId, pair: Pair)
    requires pair != PairOf(r.user, r.target)
    ensures Mutual(ActedOn(db, r, newAction, newRoom), pair) <==> Mutual(db, pair)
  {}

  lemma ActedMutual(db: Database, r: Request, newAction: ActionId, newRoom: RoomId, pair: Pair)
    requires Unacted(db, r) && r.user != r.target && (pair in db.matches <==> Mutual(db, pair))
    ensures
      var after := ActedOn(db, r, newAction, newRoom);
      pair in after.matches <==> Mutual(after, pair)
  {
    if pair == PairOf(r.user, r.target) {
      ActedPair(db, r, newAction, newRoom);
    } else {
      OtherMatches(db, r, newAction, newRoom, pair);
      OtherMutual(db, r, newAction, newRoom, pair);
    }
  }

  lemma ActedKeepsMatches(db: Database, r: Request, newAction: ActionId, newRoom: RoomId)
    requires MatchesAreMutual(db) && Unacted(db, r) && r.user != r.target
    ensures MatchesAreMutual(ActedOn(db, r, newAction, newRoom))
  {
    var after := ActedOn(db, r, newAction, newRoom);
    forall pair
      ensures pair in after.matches <==> Mutual(after, pair)
    {
      ActedMutual(db, r, newAction, newRoom, pair);
    }
  }

  lemma ActedKeepsRooms(db: Database, r: Request, newAction: ActionId, newRoom: RoomId)
    requires RoomsOk(db) && Fresh(db, r, newAction, newRoom) && Unacted(db, r)
    ensures RoomsOk(ActedOn(db, r, newAction, newRoom))
  {}

  /** What an undo that goes through does to the tables. */
  function Undone(db: Database, id: ActionId): Database
    requires id in db.actions
  {
    var action := db.actions[id];
    db.(actions := db.actions[id := action.(reverted := true)],
        likes := if action.kind == Skip then db.likes else db.likes - {Edge(action.actor, action.target)})
  }

  lemma UndoCases(db: Database, balances: Table, id: ActionId)
    requires id in db.actions
    ensures
      var (result, after, _) := Undo(db, balances, id);
      if PairOf(db.actions[id].actor, db.actions[id].target) in db.matches then after == db
      else result.Reverted? && after == Undone(db, id)
  {}

  lemma UndoneLike(db: Database, id: ActionId, e: Edge)
    requires MatchInv(db) && id in db.actions && !db.actions[id].reverted && e in Undone(db, id).likes
    ensures LikeHasAction(Undone(db, id), e)
  {
    assert LikeHasAction(db, e);
    var a :| a in db.actions && ActiveFor(db.actions[a], e.liker, e.liked) && db.actions[a].kind != Skip;
    assert Undone(db, id).actions[a] == db.actions[a];
  }

  lemma UndoneActions(db: Database, id: ActionId)
    requires ActionsOk(db) && ActionsHaveLikes(db) && id in db.actions && !db.actions[id].reverted
    ensures ActionsOk(Undone(db, id)) && ActionsHaveLikes(Undone(db, id))
  {
    forall a | a in db.actions && a != id && !db.actions[a].reverted
      ensures !SameActive(db.actions[a], db.actions[id])
    {}
  }

  lemma UndonePair(db: Database, id: ActionId, pair: Pair)
    requires MatchesAreMutual(db) && id in db.actions
    requires PairOf(db.actions[id].actor, db.actions[id].target) !in db.matches
    ensures pair in Undone(db, id).matches <==> Mutual(Undone(db, id), pair)
  {
    assert pair in db.matches <==> Mutual(db, pair);
  }

  lemma UndoneKeepsMatches(db: Database, balances: Table, id: ActionId)
    requires MatchInv(db) && id in db.actions && !db.actions[id].reverted
    ensures MatchInv(Undo(db, balances, id).1)
  {
    UndoCases(db, balances, id);
    if PairOf(db.actions[id].actor, db.actions[id].target) !in db.matches {
      UndoneActions(db, id);
      forall e | e in Undone(db, id).likes
        ensures LikeHasAction(Undone(db, id), e)
      {
        UndoneLike(db, id, e);
      }
      forall pair
        ensures pair in Undone(db, id).matches <==> Mutual(Undone(db, id), pair)
      {
        UndonePair(db, id, pair);
      }
    }
  }

  lemma ActKeepsMatches(db: Database, balances: Table, r: Request, newAction: ActionId, newRoom: RoomId)
    requires MatchInv(db) && Fresh(db, r, newAction, newRoom)
    ensures MatchInv(Act(db, balances, r, newAction, newRoom).1)
  {
    if ActiveAction(db.actions, r.user, r.target).None? {
      NoActionNoLike(db, r);
      ActedKeepsActions(db, r, newAction, newRoom);
      ActedKeepsLikes(db, r, newAction, newRoom);
      ActedKeepsMatches(db, r, newAction, newRoom);
      ActedKeepsRooms(db, r, newAction, newRoom);
    }
  }

  lemma StepKeepsMatches(s: System, e: Event)
    requires MatchInv(s.matching)
    ensures MatchInv(Step(s, e).matching)
  {
    match e
    case ActEvent(user, target, kind, limit, now, verdict, newAction, newRoom) =>
      var r := ServiceRequest(user, target, kind, limit, now, verdict);
      if Fresh(s.matching, r, newAction, newRoom) {
        ActKeepsMatches(s.matching, s.balances, r, newAction, newRoom);
      }
    case UndoEvent(user, action) =>
      if IsLastAction(s.matching.actions, user, action) {
        UndoneKeepsMatches(s.matching, s.balances, action);
      }
    case _ =>
  }

  lemma {:induction false} RunKeepsMatches(s: System, es: seq<Event>)
    requires MatchInv(s.matching)
    ensures MatchInv(Run(s, es).matching)
    decreases |es|
  {
    if es != [] {
      StepKeepsMatches(s, es[0]);
      RunKeepsMatches(Step(s, es[0]), es[1..]);
    }
  }

  /** After any run: two users are matched exactly when each likes the other, a match has its own room with
      exactly the two, and a like stands exactly for an active like or superlike. */
  lemma MatchesAreExact(es: seq<Event>, a: UserId, b: UserId)
    requires a != b
    ensures
      var db := Run(EMPTY_SYSTEM, es).matching;
      && (PairOf(a, b) in db.matches <==> Edge(a, b) in db.likes && Edge(b, a) in db.likes)
      && (PairOf(a, b) in db.matches ==>
            LookUp(db.rooms, db.matches[PairOf(a, b)]) == Some({a, b})
            && forall p :: p in db.matches && db.matches[p] == db.matches[PairOf(a, b)] ==> p == PairOf(a, b))
      && (Edge(a, b) in db.likes <==> LikeHasAction(db, Edge(a, b)))
  {
    RunKeepsMatches(EMPTY_SYSTEM, es);
    var db := Run(EMPTY_SYSTEM, es).matching;
    assert PairOf(a, b) in db.matches <==> Mutual(db, PairOf(a, b));
    if LikeHasAction(db, Edge(a, b)) {
      var id :| id in db.actions && ActiveFor(db.actions[id], a, b) && db.actions[id].kind != Skip;
    }
    assert {a, b} == {b, a};
  }

  // ---------------------------------------------------------------- credits

  function SuperLikesBy(db: Database, user: UserId): set<ActionId> {
    set a | a in db.actions && db.actions[a].actor == user && db.actions[a].kind == SuperLike && !db.actions[a].reverted
  }

  function BoostsOf(db: Database, user: UserId): set<BoostId> {
    set b | b in db.boosts && db.boosts[b].user == user
  }

  /** What a user has been given so far: the balance and what matching spent of it. */
  function SuperLikesGiven(db: Database, balances: Table, user: UserId): int {
    BalanceOf(balances, user).superLikes + |SuperLikesBy(db, user)|
  }

  function BoostsGiven(db: Database, balances: Table, user: UserId): int {
    BalanceOf(balances, user).boosts + |BoostsOf(db, user)|
  }

  predicate Standing(action: Action, user: UserId) {
    action.actor == user && action.kind == SuperLike && !action.reverted
  }

  lemma OneMore<T>(s: set<T>, x: T)
    requires x !in s
    ensures |s + {x}| == |s| + 1
  {}

  lemma OneLess<T>(s: set<T>, x: T)
    requires x in s
    ensures |s - {x}| == |s| - 1
  {}

  lemma StandingAdded(db: Database, after: Database, id: ActionId, user: UserId)
    requires id !in db.actions && id in after.actions && after.actions == db.actions[id := after.actions[id]]
    requires Standing(after.actions[id], user)
    ensures |SuperLikesBy(after, user)| == |SuperLikesBy(db, user)| + 1
  {
    assert SuperLikesBy(after, user) == SuperLikesBy(db, user) + {id};
    OneMore(SuperLikesBy(db, user), id);
  }

  lemma StandingRemoved(db: Database, after: Database, id: ActionId, user: UserId)
    requires id in db.actions && id in after.actions && after.actions == db.actions[id := after.actions[id]]
    requires Standing(db.actions[id], user) && !Standing(after.actions[id], user)
    ensures |SuperLikesBy(after, user)| == |SuperLikesBy(db, user)| - 1
  {
    assert SuperLikesBy(after, user) == SuperLikesBy(db, user) - {id};
    assert id in SuperLikesBy(db, user);
    OneLess(SuperLikesBy(db, user), id);
  }

  lemma StandingUnmoved(db: Database, after: Database, id: ActionId, user: UserId)
    requires id in after.actions && after.actions == db.actions[id := after.actions[id]]
    requires !Standing(after.actions[id], user) && (id in db.actions ==> !Standing(db.actions[id], user))
    ensures SuperLikesBy(after, user) == SuperLikesBy(db, user)
  {}

  lemma BoostAdded(db: Database, after: Database, id: BoostId, user: UserId)
    requires id !in db.boosts && id in after.boosts && after.boosts == db.boosts[id := after.boosts[id]]
    ensures after.boosts[id].user == user ==> |BoostsOf(after, user)| == |BoostsOf(db, user)| + 1
    ensures after.boosts[id].user != user ==> BoostsOf(after, user) == BoostsOf(db, user)
  {
    if after.boosts[id].user == user {
      assert BoostsOf(after, user) == BoostsOf(db, user) + {id};
      OneMore(BoostsOf(db, user), id);
    } else {
      assert BoostsOf(after, user) == BoostsOf(db, user);
    }
  }

  /** The credits that one superlike of the payer costs. */
  function Price(balances: Table, payer: UserId, kind: Kind, credits: int): Table {
    if kind == SuperLike then Credited(balances, payer, Units(credits, 0)) else balances
  }

  lemma PriceCharges(balances: Table, payer: UserId, kind: Kind, credits: int, user: UserId)
    ensures BalanceOf(Price(balances, payer, kind, credits), user).superLikes
         == BalanceOf(balances, user).superLikes + if kind == SuperLike && payer == user then credits else 0
    ensures BalanceOf(Price(balances, payer, kind, credits), user).boosts == BalanceOf(balances, user).boosts
  {}

  lemma ActedTables(db: Database, r: Request, newAction: ActionId, newRoom: RoomId)
    ensures
      var after := ActedOn(db, r, newAction, newRoom);
      after.boosts == db.boosts && after.actions == db.actions[newAction := NewAction(r)]
  {}

  /** An action is answered without a write, or goes through as a whole. */
  lemma ActCases(db: Database, balances: Table, r: Request, newAction: ActionId, newRoom: RoomId)
    requires ActiveUnique(db.actions)
    ensures
      var (result, after, paid) := Act(db, balances, r, newAction, newRoom);
      || (after == db && paid == balances && !(result.Acted? && result.created))
      || (result.Acted? && result.created && after == ActedOn(db, r, newAction, newRoom)
          && paid == Price(balances, r.user, r.kind, -1)
          && ActiveAction(db.actions, r.user, r.target).None?
          && !LimitReached(db, r)
          && result.room == (if r.kind == Skip then None else MatchedRoom(after, r.user, r.target))
          && result.matched == result.room.Some? && result.remaining == RemainingFor(r.kind, paid, r.user))
  {}

  lemma ActEffect(db: Database, balances: Table, r: Request, newAction: ActionId, newRoom: RoomId)
    requires ActiveUnique(db.actions)
    ensures
      var (_, after, paid) := Act(db, balances, r, newAction, newRoom);
      && after.boosts == db.boosts
      && ((after == db && paid == balances)
          || (after.actions == db.actions[newAction := NewAction(r)] && paid == Price(balances, r.user, r.kind, -1)))
  {
    ActCases(db, balances, r, newAction, newRoom);
    ActedTables(db, r, newAction, newRoom);
  }

  /** Both tables give a user as much before and after. */
  predicate SameGiven(db: Database, balances: Table, after: Database, paid: Table, user: UserId) {
    && SuperLikesGiven(after, paid, user) == SuperLikesGiven(db, balances, user)
    && BoostsGiven(after, paid, user) == BoostsGiven(db, balances, user)
  }

  lemma PriceSparesBoosts(
      db: Database, balances: Table, after: Database, payer: UserId, kind: Kind, credits: int, user: UserId)
    requires after.boosts == db.boosts
    ensures BoostsGiven(after, Price(balances, payer, kind, credits), user) == BoostsGiven(db, balances, user)
  {
    PriceCharges(balances, payer, kind, credits, user);
    assert BoostsOf(after, user) == BoostsOf(db, user);
  }

  lemma ActionCharged(db: Database, balances: Table, after: Database, id: ActionId, user: UserId)
    requires id !in db.actions && id in after.actions && after.actions == db.actions[id := after.actions[id]]
    requires after.boosts == db.boosts && !after.actions[id].reverted
    ensures SameGiven(db, balances, after, Price(balances, after.actions[id].actor, after.actions[id].kind, -1), user)
  {
    var action := after.actions[id];
    PriceSparesBoosts(db, balances, after, action.actor, action.kind, -1, user);
    PriceCharges(balances, action.actor, action.kind, -1, user);
    if Standing(action, user) {
      StandingAdded(db, after, id, user);
    } else {
      StandingUnmoved(db, after, id, user);
    }
  }

  lemma ActionRefunded(db: Database, balances: Table, after: Database, id: ActionId, user: UserId)
    requires id in db.actions && after.actions == db.actions[id := db.actions[id].(reverted := true)]
    requires after.boosts == db.boosts && !db.actions[id].reverted
    ensures SameGiven(db, balances, after, Price(balances, db.actions[id].actor, db.actions[id].kind, 1), user)
  {
    var action := db.actions[id];
    PriceSparesBoosts(db, balances, after, action.actor, action.kind, 1, user);
    PriceCharges(balances, action.actor, action.kind, 1, user);
    if Standing(action, user) {
      StandingRemoved(db, after, id, user);
    } else {
      StandingUnmoved(db, after, id, user);
    }
  }

  lemma UndoEffect(db: Database, balances: Table, id: ActionId)
    requires id in db.actions
    ensures
      var (_, after, paid) := Undo(db, balances, id);
      && after.boosts == db.boosts
      && ((after == db && paid == balances)
          || (after.actions == db.actions[id := db.actions[id].(reverted := true)]
              && paid == Price(balances, db.actions[id].actor, db.actions[id].kind, 1)))
  {}

  lemma BoostEffect(db: Database, balances: Table, user: UserId, now: Time, newBoost: BoostId)
    ensures
      var (_, after, paid) := Activate(db, balances, user, now, newBoost);
      && after.actions == db.actions
      && ((after == db && paid == balances)
          || (after.boosts == db.boosts[newBoost := Boost(user, now, now + BOOST_MS)]
              && paid == Credited(balances, user, Units(0, -1))))
  {}

  lemma BoostChargesBooster(db: Database, balances: Table, after: Database, id: BoostId)
    requires id !in db.boosts && id in after.boosts && after.boosts == db.boosts[id := after.boosts[id]]
    ensures
      var user := after.boosts[id].user;
      BoostsGiven(after, Credited(balances, user, Units(0, -1)), user) == BoostsGiven(db, balances, user)
  {
    BoostAdded(db, after, id, after.boosts[id].user);
    CreditReaches(balances, after.boosts[id].user, Units(0, -1));
  }

  lemma ChargeSparesSuperLikes(balances: Table, booster: UserId, user: UserId)
    ensures BalanceOf(Credited(balances, booster, Units(0, -1)), user).superLikes
         == BalanceOf(balances, user).superLikes
  {}

  lemma SameActionsSameSuperLikes(db: Database, after: Database, user: UserId)
    requires after.actions == db.actions
    ensures |SuperLikesBy(after, user)| == |SuperLikesBy(db, user)|
  {
    assert SuperLikesBy(after, user) == SuperLikesBy(db, user);
  }

  lemma BoostSparesSuperLikes(db: Database, balances: Table, after: Database, booster: UserId, user: UserId)
    requires after.actions == db.actions
    ensures SuperLikesGiven(after, Credited(balances, booster, Units(0, -1)), user) == SuperLikesGiven(db, balances, user)
  {
    ChargeSparesSuperLikes(balances, booster, user);
    SameActionsSameSuperLikes(db, after, user);
  }

  lemma BoostSparesOthers(db: Database, balances: Table, after: Database, id: BoostId, user: UserId)
    requires id !in db.boosts && id in after.boosts && after.boosts == db.boosts[id := after.boosts[id]]
    requires after.boosts[id].user != user
    ensures BoostsGiven(after, Credited(balances, after.boosts[id].user, Units(0, -1)), user)
         == BoostsGiven(db, balances, user)
  {
    BoostAdded(db, after, id, user);
    CreditSparesOthers(balances, after.boosts[id].user, Units(0, -1), user);
  }

  lemma BoostCharged(db: Database, balances: Table, after: Database, id: BoostId, user: UserId)
    requires id !in db.boosts && id in after.boosts && after.boosts == db.boosts[id := after.boosts[id]]
    requires after.actions == db.actions
    ensures SameGiven(db, balances, after, Credited(balances, after.boosts[id].user, Units(0, -1)), user)
  {
    BoostSparesSuperLikes(db, balances, after, after.boosts[id].user, user);
    if after.boosts[id].user == user {
      BoostChargesBooster(db, balances, after, id);
    } else {
      BoostSparesOthers(db, balances, after, id, user);
    }
  }

  /** A balance is what billing granted less what matching spent: superlikes still standing, and boosts. */
  predicate Covers(db: Database, balances: Table, granted: Units, user: UserId) {
    SuperLikesGiven(db, balances, user) == granted.superLikes && BoostsGiven(db, balances, user) == granted.boosts
  }

  ghost predicate ConservedFor(s: System, user: UserId) {
    Covers(s.matching, s.balances, GrantedUnits(s.billing.transactions, user), user)
  }

  lemma SpendingConserves(s: System, t: System, user: UserId)
    requires ConservedFor(s, user) && t.billing == s.billing
    requires SameGiven(s.matching, s.balances, t.matching, t.balances, user)
    ensures ConservedFor(t, user)
  {}

  lemma PaymentCovers(
      db: Database, balances: Table, balances': Table, granted: Units, granted': Units, user: UserId)
    requires Covers(db, balances, granted, user)
    requires Plus(BalanceOf(balances', user), granted) == Plus(BalanceOf(balances, user), granted')
    ensures Covers(db, balances', granted', user)
  {
    CoversTheSame(
      BalanceOf(balances, user), BalanceOf(balances', user), granted, granted',
      |SuperLikesBy(db, user)|, |BoostsOf(db, user)|);
  }

  lemma WebhookConserves(s: System, w: Billing.Webhook, after: World, user: UserId)
    requires ConservedFor(s, user) && Shape(World(s.billing, s.balances), after, w)
    ensures ConservedFor(s.(billing := after.db, balances := after.balances), user)
  {
    DeliveryPaysItsWorth(World(s.billing, s.balances), after, w, user);
    PaymentCovers(
      s.matching, s.balances, after.balances, GrantedUnits(s.billing.transactions, user),
      GrantedUnits(after.db.transactions, user), user);
  }

  lemma ActConserves(s: System, e: Event, user: UserId)
    requires ConservedFor(s, user) && e.ActEvent?
    ensures ConservedFor(Step(s, e), user)
  {
    var t := Step(s, e);
    if t != s {
      var r := ServiceRequest(e.user, e.target, e.kind, e.limit, e.now, e.verdict);
      ActEffect(s.matching, s.balances, r, e.newAction, e.newRoom);
      if t.matching.actions != s.matching.actions {
        assert t.matching.actions[e.newAction] == NewAction(r);
        ActionCharged(s.matching, s.balances, t.matching, e.newAction, user);
      }
      SpendingConserves(s, t, user);
    }
  }

  lemma UndoConserves(s: System, e: Event, user: UserId)
    requires ConservedFor(s, user) && e.UndoEvent?
    ensures ConservedFor(Step(s, e), user)
  {
    var t := Step(s, e);
    if t != s {
      UndoEffect(s.matching, s.balances, e.action);
      if t.matching.actions != s.matching.actions {
        ActionRefunded(s.matching, s.balances, t.matching, e.action, user);
      }
      SpendingConserves(s, t, user);
    }
  }

  lemma BoostConserves(s: System, e: Event, user: UserId)
    requires ConservedFor(s, user) && e.BoostEvent?
    ensures ConservedFor(Step(s, e), user)
  {
    var t := Step(s, e);
    if t != s {
      BoostEffect(s.matching, s.balances, e.user, e.now, e.newBoost);
      BoostCharged(s.matching, s.balances, t.matching, e.newBoost, user);
      SpendingConserves(s, t, user);
    }
  }

  lemma StepConserves(s: System, e: Event, user: UserId)
    requires ConservedFor(s, user)
    ensures ConservedFor(Step(s, e), user)
  {
    match e
    case Webhook(w) =>
      DeliveryShape(World(s.billing, s.balances), w);
      WebhookConserves(s, w, Deliver(World(s.billing, s.balances), w), user);
    case ActEvent(_, _, _, _, _, _, _, _) => ActConserves(s, e, user);
    case UndoEvent(_, _) => UndoConserves(s, e, user);
    case BoostEvent(_, _, _) => BoostConserves(s, e, user);
  }

  lemma {:induction false} RunConserves(s: System, es: seq<Event>, user: UserId)
    requires ConservedFor(s, user)
    ensures ConservedFor(Run(s, es), user)
    decreases |es|
  {
    if es != [] {
      StepConserves(s, es[0], user);
      RunConserves(Step(s, es[0]), es[1..], user);
    }
  }

  /** Over every run of webhooks, actions, undos and boosts, in any order: no credit is created or lost. */
  lemma CreditsAreConserved(es: seq<Event>, user: UserId)
    ensures ConservedFor(Run(EMPTY_SYSTEM, es), user)
  {
    assert SuperLikesBy(EMPTY, user) == {} && BoostsOf(EMPTY, user) == {};
    RunConserves(EMPTY_SYSTEM, es, user);
  }

  // ----------------------------------------------------------------- boosts

  predicate Apart(a: Boost, b: Boost) { a.endsAt <= b.startsAt || b.endsAt <= a.startsAt }

  ghost predicate BoostsApart(db: Database) {
    && (forall b :: b in db.boosts ==> db.boosts[b].endsAt == db.boosts[b].startsAt + BOOST_MS)
    && (forall a, b :: a in db.boosts && b in db.boosts && a != b && db.boosts[a].user == db.boosts[b].user ==>
          Apart(db.boosts[a], db.boosts[b]))
  }

  lemma ActivationKeepsApart(db: Database, balances: Table, user: UserId, now: Time, newBoost: BoostId)
    requires BoostsApart(db) && newBoost !in db.boosts
    ensures BoostsApart(Activate(db, balances, user, now, newBoost).1)
  {
    if !ActiveBoost(db, user, now) {
      assert forall b :: b in db.boosts && db.boosts[b].user == user ==> db.boosts[b].endsAt <= now;
    }
  }

  lemma BoostStep(s: System, e: Event)
    requires BoostsApart(s.matching) && e.BoostEvent?
    ensures BoostsApart(Step(s, e).matching)
  {
    if e.newBoost !in s.matching.boosts {
      ActivationKeepsApart(s.matching, s.balances, e.user, e.now, e.newBoost);
    }
  }

  lemma OtherStepsKeepBoosts(s: System, e: Event)
    requires !e.BoostEvent?
    ensures Step(s, e).matching.boosts == s.matching.boosts
  {}

  /** A user's half-hour boosts never overlap, whatever the order of the requests' moments. */
  lemma {:induction false} BoostsNeverOverlap(s: System, es: seq<Event>)
    requires BoostsApart(s.matching)
    ensures BoostsApart(Run(s, es).matching)
    decreases |es|
  {
    if es != [] {
      if es[0].BoostEvent? {
        BoostStep(s, es[0]);
      } else {
        OtherStepsKeepBoosts(s, es[0]);
      }
      BoostsNeverOverlap(Step(s, es[0]), es[1..]);
    }
  }

  // ------------------------------------------------------------ daily limit

  predicate StartsDay(start: Time) { start % DAY_MS == 0 }

  function LikesOnDay(likes: map<Edge, Time>, user: UserId, start: Time): set<Edge> {
    LikesBetween(likes, user, start, start + DAY_MS)
  }

  ghost predicate WithinDailyLimit(db: Database, user: UserId, limit: nat) {
    forall start :: StartsDay(start) ==> |LikesOnDay(db.likes, user, start)| <= limit
  }

  /** Every action of the user in the run is made under the same limit. */
  ghost predicate LimitFixed(es: seq<Event>, user: UserId, limit: nat) {
    forall i :: 0 <= i < |es| && es[i].ActEvent? && es[i].user == user ==> es[i].limit == Some(limit)
  }

  lemma DayOf(now: Time, start: Time)
    requires StartsDay(start)
    ensures start <= now < start + DAY_MS <==> DayStart(now) == start
  {}

  lemma LikeKeepsDay(likes: map<Edge, Time>, e: Edge, now: Time, user: UserId, start: Time, limit: nat)
    requires StartsDay(start) && e !in likes && |LikesOnDay(likes, user, start)| <= limit
    requires e.liker == user ==> |LikesOnDay(likes, user, DayStart(now))| < limit
    ensures |LikesOnDay(likes[e := now], user, start)| <= limit
  {
    var before, after := LikesOnDay(likes, user, start), LikesOnDay(likes[e := now], user, start);
    DayOf(now, start);
    if e.liker == user && DayStart(now) == start {
      assert after == before + {e};
    } else {
      assert after == before;
    }
  }

  lemma LikesGrowByOne(db: Database, balances: Table, r: Request, newAction: ActionId, newRoom: RoomId)
    requires ActiveUnique(db.actions)
    ensures
      var after := Act(db, balances, r, newAction, newRoom).1;
      after.likes != db.likes ==>
        && after.likes == db.likes[Edge(r.user, r.target) := r.now] && Edge(r.user, r.target) !in db.likes
        && (r.dailyLimit.Some? ==> |LikesBetween(db.likes, r.user, r.dayStart, r.dayEnd)| < r.dailyLimit.value)
  {
    ActCases(db, balances, r, newAction, newRoom);
    ActedLikes(db, r, newAction, newRoom);
  }

  lemma ActedLikes(db: Database, r: Request, newAction: ActionId, newRoom: RoomId)
    ensures ActedOn(db, r, newAction, newRoom).likes
         == if r.kind == Skip || Edge(r.user, r.target) in db.likes then db.likes
            else db.likes[Edge(r.user, r.target) := r.now]
  {}

  lemma ActKeepsDay(s: System, e: Event, user: UserId, limit: nat)
    requires e.ActEvent? && WithinDailyLimit(s.matching, user, limit)
    requires e.user == user ==> e.limit == Some(limit)
    ensures WithinDailyLimit(Step(s, e).matching, user, limit)
  {
    var before, after := s.matching.likes, Step(s, e).matching.likes;
    if after != before {
      LikesGrowByOne(
        s.matching, s.balances, ServiceRequest(e.user, e.target, e.kind, e.limit, e.now, e.verdict), e.newAction, e.newRoom);
      forall start | StartsDay(start)
        ensures |LikesOnDay(after, user, start)| <= limit
      {
        LikeKeepsDay(before, Edge(e.user, e.target), e.now, user, start, limit);
      }
    }
  }

  lemma OtherStepsAddNoLike(s: System, e: Event)
    requires !e.ActEvent?
    ensures
      forall edge :: edge in Step(s, e).matching.likes ==>
        edge in s.matching.likes && Step(s, e).matching.likes[edge] == s.matching.likes[edge]
  {}

  lemma FewerLikesKeepDay(db: Database, after: Database, user: UserId, limit: nat)
    requires WithinDailyLimit(db, user, limit)
    requires forall e :: e in after.likes ==> e in db.likes && after.likes[e] == db.likes[e]
    ensures WithinDailyLimit(after, user, limit)
  {
    forall start | StartsDay(start)
      ensures |LikesOnDay(after.likes, user, start)| <= limit
    {
      SubsetSize(LikesOnDay(after.likes, user, start), LikesOnDay(db.likes, user, start));
    }
  }

  /** Under a fixed plan, no UTC day ever holds more standing likes of the user than the plan allows,
      whatever the order of the requests' moments. */
  lemma {:induction false} DailyLimitHolds(s: System, es: seq<Event>, user: UserId, limit: nat)
    requires WithinDailyLimit(s.matching, user, limit) && LimitFixed(es, user, limit)
    ensures WithinDailyLimit(Run(s, es).matching, user, limit)
    decreases |es|
  {
    if es != [] {
      if es[0].ActEvent? {
        ActKeepsDay(s, es[0], user, limit);
      } else {
        OtherStepsAddNoLike(s, es[0]);
        FewerLikesKeepDay(s.matching, Step(s, es[0]).matching, user, limit);
      }
      DailyLimitHolds(Step(s, es[0]), es[1..], user, limit);
    }
  }

  /** So on a plan with a limit: ten likes a day unless it is basic, gold or the unlimited black. */
  lemma PlanLimitHolds(es: seq<Event>, user: UserId, planId: string)
    requires DailyLikeLimit(planId).Some? && LimitFixed(es, user, DailyLikeLimit(planId).value)
    ensures planId != "black"
    ensures
      var limit := if planId == "basic" then 20 else if planId == "gold" then 40 else 10;
      WithinDailyLimit(Run(EMPTY_SYSTEM, es).matching, user, limit)
  {
    forall start | StartsDay(start)
      ensures |LikesOnDay(EMPTY.likes, user, start)| <= DailyLikeLimit(planId).value
    {
      assert LikesOnDay(EMPTY.likes, user, start) == {};
    }
    DailyLimitHolds(EMPTY_SYSTEM, es, user, DailyLikeLimit(planId).value);
  }

  // ------------------------------------------------- undoing and repeating

  /** The user's other active actions are all older. */
  ghost predicate NewestMoment(db: Database, user: UserId, now: Time) {
    forall a :: a in db.actions && db.actions[a].actor == user && !db.actions[a].reverted ==>
      db.actions[a].createdAt < now
  }

  lemma UnmatchedTables(db: Database, r: Request, newAction: ActionId, newRoom: RoomId)
    requires Unacted(db, r)
    requires r.kind == Skip || MatchedRoom(ActedOn(db, r, newAction, newRoom), r.user, r.target).None?
    ensures ActedOn(db, r, newAction, newRoom)
         == db.(actions := db.actions[newAction := NewAction(r)],
                likes := if r.kind == Skip then db.likes else db.likes[Edge(r.user, r.target) := r.now])
  {}

  /** An action that goes through without a match only adds itself, its like and its price. */
  lemma UnmatchedAct(db: Database, balances: Table, r: Request, newAction: ActionId, newRoom: RoomId)
    requires MatchInv(db) && Fresh(db, r, newAction, newRoom)
    ensures
      var (result, acted, paid) := Act(db, balances, r, newAction, newRoom);
      result.Acted? && result.created && !result.matched ==>
        && Edge(r.user, r.target) !in db.likes && PairOf(r.user, r.target) !in db.matches
        && acted == db.(actions := db.actions[newAction := NewAction(r)],
                        likes := if r.kind == Skip then db.likes else db.likes[Edge(r.user, r.target) := r.now])
        && paid == Price(balances, r.user, r.kind, -1)
  {
    var result := Act(db, balances, r, newAction, newRoom).0;
    ActCases(db, balances, r, newAction, newRoom);
    if result.Acted? && result.created && !result.matched {
      NoActionNoLike(db, r);
      UnmatchedTables(db, r, newAction, newRoom);
    }
  }

  lemma NewestIsLast(actions: map<ActionId, Action>, after: map<ActionId, Action>, id: ActionId)
    requires id !in actions && id in after && after == actions[id := after[id]] && !after[id].reverted
    requires forall a :: a in actions && actions[a].actor == after[id].actor && !actions[a].reverted ==>
      actions[a].createdAt < after[id].createdAt
    ensures IsLastAction(after, after[id].actor, id)
    ensures forall a :: IsLastAction(after, after[id].actor, a) ==> a == id
  {}

  lemma UndoOfUnmatched(db: Database, acted: Database, r: Request, id: ActionId, balances: Table)
    requires id !in db.actions && Edge(r.user, r.target) !in db.likes && PairOf(r.user, r.target) !in db.matches
    requires acted == db.(actions := db.actions[id := NewAction(r)],
                          likes := if r.kind == Skip then db.likes else db.likes[Edge(r.user, r.target) := r.now])
    ensures
      var (undone, after, refunded) := Undo(acted, balances, id);
      && undone.Reverted?
      && after == db.(actions := db.actions[id := NewAction(r).(reverted := true)])
      && refunded == if r.kind == SuperLike then Credited(balances, r.user, Units(1, 0)) else balances
  {
    assert (db.likes[Edge(r.user, r.target) := r.now]) - {Edge(r.user, r.target)} == db.likes;
  }

  /** Undoing an action that did not match gives back the likes, the matches, the rooms and the credits,
      and only the reverted action is left of it. */
  lemma UndoRestores(
      db: Database, balances: Table, r: Request, newAction: ActionId, newRoom: RoomId, user: UserId)
    requires MatchInv(db) && Fresh(db, r, newAction, newRoom) && NewestMoment(db, r.user, r.now)
    ensures
      var (result, acted, paid) := Act(db, balances, r, newAction, newRoom);
      result.Acted? && result.created && !result.matched ==>
        && IsLastAction(acted.actions, r.user, newAction)
        && (forall a :: IsLastAction(acted.actions, r.user, a) ==> a == newAction)
        && var (undone, after, refunded) := Undo(acted, paid, newAction);
           && undone.Reverted?
           && after == db.(actions := db.actions[newAction := NewAction(r).(reverted := true)])
           && BalanceOf(refunded, user) == BalanceOf(balances, user)
  {
    UnmatchedAct(db, balances, r, newAction, newRoom);
    UndoneUnmatched(db, balances, r, newAction, newRoom, user, Act(db, balances, r, newAction, newRoom));
  }

  lemma UndoneUnmatched(
      db: Database, balances: Table, r: Request, newAction: ActionId, newRoom: RoomId, user: UserId,
      act: (ActResult, Database, Table))
    requires newAction !in db.actions && NewestMoment(db, r.user, r.now)
    requires
      act.0.Acted? && act.0.created && !act.0.matched ==>
        && Edge(r.user, r.target) !in db.likes && PairOf(r.user, r.target) !in db.matches
        && act.1 == db.(actions := db.actions[newAction := NewAction(r)],
                        likes := if r.kind == Skip then db.likes else db.likes[Edge(r.user, r.target) := r.now])
        && act.2 == Price(balances, r.user, r.kind, -1)
    ensures
      act.0.Acted? && act.0.created && !act.0.matched ==>
        && IsLastAction(act.1.actions, r.user, newAction)
        && (forall a :: IsLastAction(act.1.actions, r.user, a) ==> a == newAction)
        && var (undone, after, refunded) := Undo(act.1, act.2, newAction);
           && undone.Reverted?
           && after == db.(actions := db.actions[newAction := NewAction(r).(reverted := true)])
           && BalanceOf(refunded, user) == BalanceOf(balances, user)
  {
    if act.0.Acted? && act.0.created && !act.0.matched {
      NewestIsLast(db.actions, act.1.actions, newAction);
      UndoOfUnmatched(db, act.1, r, newAction, act.2);
      if user == r.user {
        RefundRestoresPayer(balances, user);
      } else {
        CreditSparesOthers(balances, r.user, Units(-1, 0), user);
        CreditSparesOthers(act.2, r.user, Units(1, 0), user);
      }
    }
  }

  /** The pair's room after an action is the one that the action found. */
  lemma AnswerShown(db: Database, r: Request, newAction: ActionId, newRoom: RoomId)
    requires Unacted(db, r) && r.kind != Skip
    ensures
      var after := ActedOn(db, r, newAction, newRoom);
      MatchedRoom(after, r.user, r.target) == LookUp(after.matches, PairOf(r.user, r.target))
  {}

  /** What a created action answered is still what the tables show. */
  lemma CreatedAnswer(db: Database, balances: Table, r: Request, newAction: ActionId, newRoom: RoomId)
    requires MatchInv(db) && Fresh(db, r, newAction, newRoom)
    ensures
      var (result, acted, paid) := Act(db, balances, r, newAction, newRoom);
      result.Acted? && result.created ==>
        && newAction in acted.actions && acted.actions[newAction] == NewAction(r)
        && result == Replayed(acted, paid, r, NewAction(r)).(created := true)
  {
    var result := Act(db, balances, r, newAction, newRoom).0;
    ActCases(db, balances, r, newAction, newRoom);
    if result.Acted? && result.created {
      NoActionNoLike(db, r);
      ActedTables(db, r, newAction, newRoom);
      if r.kind != Skip {
        AnswerShown(db, r, newAction, newRoom);
      }
    }
  }

  /** Repeating an action that went through gives the same answer and changes nothing. */
  lemma RepeatAnswersTheSame(
      db: Database, balances: Table, r: Request, newAction: ActionId, newRoom: RoomId, again: Request,
      action': ActionId, room': RoomId)
    requires MatchInv(db) && Fresh(db, r, newAction, newRoom)
    requires again.user == r.user && again.target == r.target && again.kind == r.kind
    ensures
      var (result, acted, paid) := Act(db, balances, r, newAction, newRoom);
      ActiveUnique(acted.actions)
      && (result.Acted? ==> Act(acted, paid, again, action', room') == (result.(created := false), acted, paid))
  {
    ActKeepsMatches(db, balances, r, newAction, newRoom);
    CreatedAnswer(db, balances, r, newAction, newRoom);
    var (result, acted, paid) := Act(db, balances, r, newAction, newRoom);
    if result.Acted? && result.created {
      assert ActiveFor(acted.actions[newAction], r.user, r.target);
      SoleActive(acted.actions, newAction, r.user, r.target);
    }
  }

  lemma SoleActive(actions: map<ActionId, Action>, id: ActionId, actor: UserId, target: UserId)
    requires ActiveUnique(actions) && id in actions && ActiveFor(actions[id], actor, target)
    ensures ActiveAction(actions, actor, target) == Some(id)
  {
    var found := ActiveAction(actions, actor, target);
    assert found.Some?;
    assert SameActive(actions[found.value], actions[id]);
  }
}
