/** Likes, match actions, matches and boosts: the matching repository's transactions over its tables and
    the shared balances. */
module Matching {
  import opened Common
  import opened Balances

  type ActionId = int
  type RoomId = int
  type BoostId = int

  const DAY_MS: int := 24 * HOUR_MS
  const BOOST_MS: int := 30 * MINUTE_MS

  datatype Kind = Skip | Like | SuperLike

  datatype Action = Action(actor: UserId, target: UserId, kind: Kind, createdAt: Time, reverted: bool)

  datatype Edge = Edge(liker: UserId, liked: UserId)

  /** The two users of a match, the lower id first. */
  datatype Pair = Pair(low: UserId, high: UserId)

  datatype Boost = Boost(user: UserId, startsAt: Time, endsAt: Time)

  datatype Database = Database(
    actions: map<ActionId, Action>,
    likes: map<Edge, Time>,
    matches: map<Pair, RoomId>,
    rooms: map<RoomId, set<UserId>>,
    boosts: map<BoostId, Boost>)

  const EMPTY := Database(map[], map[], map[], map[], map[])

  function PairOf(a: UserId, b: UserId): Pair { if a < b then Pair(a, b) else Pair(b, a) }

  predicate ActiveFor(action: Action, actor: UserId, target: UserId) {
    action.actor == actor && action.target == target && !action.reverted
  }

  /** At most one action of a user towards another is active. */
  predicate ActiveUnique(actions: map<ActionId, Action>) {
    forall a, b :: a in actions && b in actions && SameActive(actions[a], actions[b]) ==> a == b
  }

  predicate SameActive(a: Action, b: Action) {
    !a.reverted && !b.reverted && a.actor == b.actor && a.target == b.target
  }

  function ActiveAction(actions: map<ActionId, Action>, actor: UserId, target: UserId): (found: Option<ActionId>)
    requires ActiveUnique(actions)
    ensures found.Some? ==> found.value in actions && ActiveFor(actions[found.value], actor, target)
    ensures found.None? ==> forall a :: a in actions ==> !ActiveFor(actions[a], actor, target)
  {
    if exists a :: a in actions && ActiveFor(actions[a], actor, target)
    then var a :| a in actions && ActiveFor(actions[a], actor, target); Some(a)
    else None
  }

  function LikesBetween(likes: map<Edge, Time>, user: UserId, from: Time, to: Time): set<Edge> {
    set e | e in likes && e.liker == user && from <= likes[e] < to
  }

  /** The request, with the day that the service computed and a verdict on the two profiles: None when
      both are complete, visible, mutually acceptable and not blocked. */
  datatype Request = Request(
    user: UserId, target: UserId, kind: Kind, dailyLimit: Option<nat>, now: Time, dayStart: Time, dayEnd: Time,
    verdict: Option<string>)

  datatype ActResult =
    | Acted(matched: bool, room: Option<RoomId>, remaining: Option<int>, created: bool)
    | Refused(code: string)

  function LookUp<K, V>(table: map<K, V>, key: K): Option<V> {
    if key in table then Some(table[key]) else None
  }

  function RemainingFor(kind: Kind, balances: Table, user: UserId): Option<int> {
    if kind == SuperLike && user in balances then Some(balances[user].superLikes) else None
  }

  /** An action that is still active is answered again, or refused when it was another one. */
  function Replayed(db: Database, balances: Table, r: Request, existing: Action): ActResult {
    if existing.kind != r.kind then Refused("MATCH_ACTION_CONFLICT")
    else if r.kind == Skip then Acted(false, None, None, false)
    else
      var room := LookUp(db.matches, PairOf(r.user, r.target));
      Acted(room.Some?, room, RemainingFor(r.kind, balances, r.user), false)
  }

  predicate HasSuperLike(balances: Table, user: UserId) { user in balances && balances[user].superLikes > 0 }

  predicate LimitReached(db: Database, r: Request) {
    && r.kind != Skip && Edge(r.user, r.target) !in db.likes
    && r.dailyLimit.Some? && |LikesBetween(db.likes, r.user, r.dayStart, r.dayEnd)| >= r.dailyLimit.value
  }

  function NewAction(r: Request): Action { Action(r.user, r.target, r.kind, r.now, false) }

  function LikeAdded(db: Database, r: Request): Database {
    if r.kind == Skip || Edge(r.user, r.target) in db.likes then db
    else db.(likes := db.likes[Edge(r.user, r.target) := r.now])
  }

  /** The reverse like exists and the pair is not matched yet: open a room for the two. */
  function MatchAdded(db: Database, user: UserId, target: UserId, newRoom: RoomId): Database {
    if Edge(target, user) !in db.likes || PairOf(user, target) in db.matches then db
    else db.(rooms := db.rooms[newRoom := {user, target}], matches := db.matches[PairOf(user, target) := newRoom])
  }

  function MatchedRoom(db: Database, user: UserId, target: UserId): Option<RoomId> {
    if Edge(target, user) in db.likes then LookUp(db.matches, PairOf(user, target)) else None
  }

  function ActedOn(db: Database, r: Request, newAction: ActionId, newRoom: RoomId): Database {
    var recorded := LikeAdded(db, r).(actions := db.actions[newAction := NewAction(r)]);
    if r.kind == Skip then recorded else MatchAdded(recorded, r.user, r.target, newRoom)
  }

  /** actOnCandidate, with the ids that its inserts would draw. */
  function Act(db: Database, balances: Table, r: Request, newAction: ActionId, newRoom: RoomId)
    : (ActResult, Database, Table)
    requires ActiveUnique(db.actions)
  {
    var existing := ActiveAction(db.actions, r.user, r.target);
    if existing.Some? then (Replayed(db, balances, r, db.actions[existing.value]), db, balances)
    else if r.verdict.Some? then (Refused(r.verdict.value), db, balances)
    else if r.kind == SuperLike && !HasSuperLike(balances, r.user) then
      (Refused("SUPERLIKE_CREDITS_REQUIRED"), db, balances)
    else if LimitReached(db, r) then (Refused("LIKE_LIMIT_REACHED"), db, balances)
    else
      var paid := if r.kind == SuperLike then Credited(balances, r.user, Units(-1, 0)) else balances;
      var after := ActedOn(db, r, newAction, newRoom);
      var room := if r.kind == Skip then None else MatchedRoom(after, r.user, r.target);
      (Acted(room.Some?, room, RemainingFor(r.kind, paid, r.user), true), after, paid)
  }

  /** `id` is one of the user's newest active actions. */
  predicate IsLastAction(actions: map<ActionId, Action>, user: UserId, id: ActionId) {
    && id in actions && actions[id].actor == user && !actions[id].reverted
    && forall a :: a in actions && actions[a].actor == user && !actions[a].reverted ==>
         actions[a].createdAt <= actions[id].createdAt
  }

  predicate HasActive(actions: map<ActionId, Action>, user: UserId) {
    exists a :: a in actions && actions[a].actor == user && !actions[a].reverted
  }

  datatype UndoResult = Reverted(action: Action) | NothingToUndo | UndoRefused(code: string)

  /** undoLastAction once the newest active action has been chosen. */
  function Undo(db: Database, balances: Table, id: ActionId): (UndoResult, Database, Table)
    requires id in db.actions
  {
    var action := db.actions[id];
    if PairOf(action.actor, action.target) in db.matches then
      (UndoRefused("UNDO_NOT_AVAILABLE_AFTER_MATCH"), db, balances)
    else
      var reverted := action.(reverted := true);
      (Reverted(reverted),
       db.(actions := db.actions[id := reverted],
           likes := if action.kind == Skip then db.likes else db.likes - {Edge(action.actor, action.target)}),
       if action.kind == SuperLike then Credited(balances, action.actor, Units(1, 0)) else balances)
  }

  predicate ActiveBoost(db: Database, user: UserId, now: Time) {
    exists b :: b in db.boosts && db.boosts[b].user == user && db.boosts[b].endsAt > now
  }

  datatype BoostResult = Boosted(endsAt: Time, remaining: int) | BoostRefused(code: string)

  function Activate(db: Database, balances: Table, user: UserId, now: Time, newBoost: BoostId)
    : (BoostResult, Database, Table)
  {
    if user !in balances || balances[user].boosts <= 0 then (BoostRefused("BOOST_CREDITS_REQUIRED"), db, balances)
    else if ActiveBoost(db, user, now) then (BoostRefused("BOOST_ALREADY_ACTIVE"), db, balances)
    else
      (Boosted(now + BOOST_MS, balances[user].boosts - 1),
       db.(boosts := db.boosts[newBoost := Boost(user, now, now + BOOST_MS)]),
       Credited(balances, user, Units(0, -1)))
  }

  /** The UTC day of a moment. */
  function DayStart(now: Time): Time { now - now % DAY_MS }

  /** The service's request: the plan decides the limit, the moment the day. */
  function DailyLikeLimit(planId: string): Option<nat> {
    if planId == "basic" then Some(20)
    else if planId == "gold" then Some(40)
    else if planId == "black" then None
    else Some(10)
  }

  function ServiceRequest(
      user: UserId, target: UserId, kind: Kind, limit: Option<nat>, now: Time, verdict: Option<string>): Request
  {
    Request(user, target, kind, limit, now, DayStart(now), DayStart(now) + DAY_MS, verdict)
  }

  // ------------------------------------------------- what the transactions owe their callers

  /** A superlike needs a balance of at least one, a like that is not there yet a day with fewer likes than
      the limit. */
  predicate CanPay(balances: Table, r: Request) {
    r.kind == SuperLike ==> r.user in balances && 1 <= balances[r.user].superLikes
  }

  predicate DayHasRoom(db: Database, r: Request) {
    r.kind != Skip && Edge(r.user, r.target) !in db.likes && r.dailyLimit.Some? ==>
      |set e | e in db.likes && e.liker == r.user && r.dayStart <= db.likes[e] && db.likes[e] < r.dayEnd| < r.dailyLimit.value
  }

  function RoomOf(db: Database, r: Request): Option<RoomId> {
    var pair := if r.user < r.target then Pair(r.user, r.target) else Pair(r.target, r.user);
    if pair in db.matches then Some(db.matches[pair]) else None
  }

  function SuperLikesLeft(balances: Table, user: UserId): Option<int> {
    if user in balances then Some(balances[user].superLikes) else None
  }

  /** An action that is still active is answered again without an effect, or refused when it was another. */
  predicate ReplayAnswer(db: Database, balances: Table, r: Request, kind: Kind, result: ActResult) {
    && (kind != r.kind ==> result == Refused("MATCH_ACTION_CONFLICT"))
    && (kind == r.kind && kind == Skip ==> result == Acted(false, None, None, false))
    && (kind == r.kind && kind != Skip ==>
          result == Acted(RoomOf(db, r).Some?, RoomOf(db, r),
                          if kind == SuperLike then SuperLikesLeft(balances, r.user) else None, false))
  }

  /** A new action goes through if and only if it can be paid and the day has room; it is then recorded with
      its like, a superlike takes one credit, and a like that is returned opens a room unless one is open. */
  predicate NewAnswer(
    db: Database, after: Database, balances: Table, paid: Table, r: Request, newAction: ActionId, newRoom: RoomId,
    result: ActResult)
  {
    && (result.Acted? <==> CanPay(balances, r) && DayHasRoom(db, r))
    && (!CanPay(balances, r) ==> result == Refused("SUPERLIKE_CREDITS_REQUIRED"))
    && (CanPay(balances, r) && !DayHasRoom(db, r) ==> result == Refused("LIKE_LIMIT_REACHED"))
    && (result.Refused? ==> after == db && paid == balances)
    && (result.Acted? ==>
          && after.actions == db.actions[newAction := Action(r.user, r.target, r.kind, r.now, false)]
          && after.likes == (if r.kind == Skip || Edge(r.user, r.target) in db.likes then db.likes
                             else db.likes[Edge(r.user, r.target) := r.now])
          && after.boosts == db.boosts
          && (r.kind == SuperLike ==>
                && r.user in paid && paid == balances[r.user := paid[r.user]]
                && paid[r.user] == balances[r.user].(superLikes := balances[r.user].superLikes - 1))
          && (r.kind != SuperLike ==> paid == balances)
          && MatchAnswer(db, after, r, newRoom, result.matched, result.room)
          && result.created
          && result.remaining == if r.kind == SuperLike then Some(paid[r.user].superLikes) else None)
  }

  predicate MatchAnswer(
    db: Database, after: Database, r: Request, newRoom: RoomId, matched: bool, room: Option<RoomId>)
  {
    && (matched <==> r.kind != Skip && Edge(r.target, r.user) in after.likes)
    && room == (if matched then RoomOf(after, r) else None)
    && (matched ==> room.Some?)
    && (if matched && RoomOf(db, r).None? then
          && after.rooms == db.rooms[newRoom := {r.user, r.target}] && room == Some(newRoom)
          && after.matches
             == db.matches[(if r.user < r.target then Pair(r.user, r.target) else Pair(r.target, r.user)) := newRoom]
        else after.rooms == db.rooms && after.matches == db.matches)
  }

  ghost predicate ActAnswer(
    db: Database, after: Database, balances: Table, paid: Table, r: Request, newAction: ActionId, newRoom: RoomId,
    result: ActResult)
  {
    && (forall a :: a in db.actions && ActiveFor(db.actions[a], r.user, r.target) ==>
          ReplayAnswer(db, balances, r, db.actions[a].kind, result) && after == db && paid == balances)
    && ((forall a :: a in db.actions ==> !ActiveFor(db.actions[a], r.user, r.target)) ==>
          if r.verdict.Some? then result == Refused(r.verdict.value) && after == db && paid == balances
          else NewAnswer(db, after, balances, paid, r, newAction, newRoom, result))
  }

  lemma LimitIsRoom(db: Database, r: Request)
    ensures LimitReached(db, r) <==> !DayHasRoom(db, r)
  {
    assert LikesBetween(db.likes, r.user, r.dayStart, r.dayEnd)
        == set e | e in db.likes && e.liker == r.user && r.dayStart <= db.likes[e] && db.likes[e] < r.dayEnd;
  }

  lemma ActedTablesMeet(db: Database, r: Request, newAction: ActionId, newRoom: RoomId)
    ensures
      var after := ActedOn(db, r, newAction, newRoom);
      && after.actions == db.actions[newAction := Action(r.user, r.target, r.kind, r.now, false)]
      && after.likes == (if r.kind == Skip || Edge(r.user, r.target) in db.likes then db.likes
                         else db.likes[Edge(r.user, r.target) := r.now])
      && after.boosts == db.boosts
  {}

  lemma ActedMatchMeets(db: Database, r: Request, newAction: ActionId, newRoom: RoomId)
    ensures
      var after := ActedOn(db, r, newAction, newRoom);
      var room := if r.kind == Skip then None else MatchedRoom(after, r.user, r.target);
      MatchAnswer(db, after, r, newRoom, room.Some?, room)
  {}

  lemma NewAnswers(db: Database, balances: Table, r: Request, newAction: ActionId, newRoom: RoomId)
    requires ActiveUnique(db.actions) && ActiveAction(db.actions, r.user, r.target).None? && r.verdict.None?
    ensures
      var (result, after, paid) := Act(db, balances, r, newAction, newRoom);
      NewAnswer(db, after, balances, paid, r, newAction, newRoom, result)
  {
    LimitIsRoom(db, r);
    ActedTablesMeet(db, r, newAction, newRoom);
    ActedMatchMeets(db, r, newAction, newRoom);
  }

  /** Whatever is asked, every refusal names its cause and changes nothing, and every success is recorded. */
  lemma ActAnswers(db: Database, balances: Table, r: Request, newAction: ActionId, newRoom: RoomId)
    requires ActiveUnique(db.actions)
    ensures
      var (result, after, paid) := Act(db, balances, r, newAction, newRoom);
      ActAnswer(db, after, balances, paid, r, newAction, newRoom, result)
  {
    var existing := ActiveAction(db.actions, r.user, r.target);
    if existing.Some? {
      assert forall a :: a in db.actions && ActiveFor(db.actions[a], r.user, r.target) ==> a == existing.value;
    } else if r.verdict.None? {
      NewAnswers(db, balances, r, newAction, newRoom);
    }
  }

  /** The newest action is taken back with its like and its credit, unless the two have matched. */
  ghost predicate UndoAnswer(
    db: Database, after: Database, balances: Table, paid: Table, id: ActionId, result: UndoResult)
    requires id in db.actions
  {
    var action := db.actions[id];
    var low, high := if action.actor < action.target then action.actor else action.target,
                     if action.actor < action.target then action.target else action.actor;
    && (result.Reverted? <==> Pair(low, high) !in db.matches)
    && (!result.Reverted? ==>
          result == UndoRefused("UNDO_NOT_AVAILABLE_AFTER_MATCH") && after == db && paid == balances)
    && (result.Reverted? ==>
          && result.action == action.(reverted := true)
          && after == db.(actions := db.actions[id := result.action], likes := after.likes)
          && (forall e :: e in after.likes <==>
                e in db.likes && !(action.kind != Skip && e == Edge(action.actor, action.target)))
          && (forall e :: e in after.likes ==> after.likes[e] == db.likes[e])
          && (action.kind != SuperLike ==> paid == balances)
          && (action.kind == SuperLike ==>
                && action.actor in paid && paid == balances[action.actor := paid[action.actor]]
                && paid[action.actor]
                   == if action.actor in balances
                      then balances[action.actor].(superLikes := balances[action.actor].superLikes + 1)
                      else Units(1, 0)))
  }

  lemma UndoAnswers(db: Database, balances: Table, id: ActionId)
    requires id in db.actions
    ensures
      var (result, after, paid) := Undo(db, balances, id);
      UndoAnswer(db, after, balances, paid, id, result)
  {}

  /** A boost starts if and only if a credit is there and none is running; it lasts half an hour and takes
      exactly one credit. */
  ghost predicate BoostAnswer(
    db: Database, after: Database, balances: Table, paid: Table, user: UserId, now: Time, newBoost: BoostId,
    result: BoostResult)
  {
    var credit := user in balances && 1 <= balances[user].boosts;
    var running := exists b :: b in db.boosts && db.boosts[b].user == user && now < db.boosts[b].endsAt;
    && (result.Boosted? <==> credit && !running)
    && (!credit ==> result == BoostRefused("BOOST_CREDITS_REQUIRED"))
    && (credit && running ==> result == BoostRefused("BOOST_ALREADY_ACTIVE"))
    && (!result.Boosted? ==> after == db && paid == balances)
    && (result.Boosted? ==>
          && result == Boosted(now + 30 * MINUTE_MS, balances[user].boosts - 1)
          && after == db.(boosts := db.boosts[newBoost := Boost(user, now, now + 30 * MINUTE_MS)])
          && paid == balances[user := balances[user].(boosts := balances[user].boosts - 1)])
  }

  lemma BoostAnswers(db: Database, balances: Table, user: UserId, now: Time, newBoost: BoostId)
    ensures
      var (result, after, paid) := Activate(db, balances, user, now, newBoost);
      BoostAnswer(db, after, balances, paid, user, now, newBoost, result)
  {}

  class MatchingRepository {
    const balances: BalanceTable
    var actions: map<ActionId, Action>
    var likes: map<Edge, Time>
    var matches: map<Pair, RoomId>
    var rooms: map<RoomId, set<UserId>>
    var boosts: map<BoostId, Boost>

    constructor (balances: BalanceTable)
      ensures this.balances == balances && Db() == EMPTY
    {
      this.balances := balances;
      actions, likes, matches, rooms, boosts := map[], map[], map[], map[], map[];
    }

    function Db(): Database
      reads this
    {
      Database(actions, likes, matches, rooms, boosts)
    }

    method ActOnCandidate(r: Request, newAction: ActionId, newRoom: RoomId) returns (result: ActResult)
      requires ActiveUnique(actions)
      modifies this, balances
      ensures (result, Db(), balances.rows) == Act(old(Db()), old(balances.rows), r, newAction, newRoom)
      ensures ActAnswer(old(Db()), Db(), old(balances.rows), balances.rows, r, newAction, newRoom, result)
    {
      ActAnswers(Db(), balances.rows, r, newAction, newRoom);
      result := ActInTransaction(r, newAction, newRoom);
    }

    method ActInTransaction(r: Request, newAction: ActionId, newRoom: RoomId) returns (result: ActResult)
      requires ActiveUnique(actions)
      modifies this, balances
      ensures (result, Db(), balances.rows) == Act(old(Db()), old(balances.rows), r, newAction, newRoom)
    {
      var existing := ActiveAction(actions, r.user, r.target);
      if existing.Some? {
        return Replayed(Db(), balances.rows, r, actions[existing.value]);
      }
      if r.verdict.Some? {
        return Refused(r.verdict.value);
      }
      var unpaid := balances.rows;
      if r.kind == SuperLike {
        if !HasSuperLike(balances.rows, r.user) {
          return Refused("SUPERLIKE_CREDITS_REQUIRED");
        }
        balances.Credit(r.user, Units(-1, 0));
      }
      if r.kind != Skip && Edge(r.user, r.target) !in likes {
        var today := LikesBetween(likes, r.user, r.dayStart, r.dayEnd);
        if r.dailyLimit.Some? && |today| >= r.dailyLimit.value {
          balances.rows := unpaid;
          return Refused("LIKE_LIMIT_REACHED");
        }
        likes := likes[Edge(r.user, r.target) := r.now];
      }
      actions := actions[newAction := NewAction(r)];
      if r.kind == Skip {
        return Acted(false, None, None, true);
      }
      var room := MatchIfReverseExists(r.user, r.target, newRoom);
      return Acted(room.Some?, room, RemainingFor(r.kind, balances.rows, r.user), true);
    }

    method MatchIfReverseExists(user: UserId, target: UserId, newRoom: RoomId) returns (room: Option<RoomId>)
      modifies this`rooms, this`matches
      ensures Db() == MatchAdded(old(Db()), user, target, newRoom)
      ensures room == MatchedRoom(Db(), user, target)
    {
      if Edge(target, user) !in likes {
        return None;
      }
      var pair := PairOf(user, target);
      if pair in matches {
        return Some(matches[pair]);
      }
      rooms := rooms[newRoom := {user, target}];
      matches := matches[pair := newRoom];
      return Some(newRoom);
    }

    /** Any of the user's newest active actions may come first. */
    method UndoLastAction(user: UserId) returns (result: UndoResult, ghost chosen: ActionId)
      modifies this, balances
      ensures old(HasActive(actions, user)) ==>
        IsLastAction(old(actions), user, chosen)
        && (result, Db(), balances.rows) == Undo(old(Db()), old(balances.rows), chosen)
        && UndoAnswer(old(Db()), Db(), old(balances.rows), balances.rows, chosen, result)
      ensures !old(HasActive(actions, user)) ==>
        result == NothingToUndo && Db() == old(Db()) && balances.rows == old(balances.rows)
    {
      chosen := 0;
      if !HasActive(actions, user) {
        return NothingToUndo, chosen;
      }
      var active := set a | a in actions && actions[a].actor == user && !actions[a].reverted;
      assert active != {} by {
        var a :| a in actions && actions[a].actor == user && !actions[a].reverted;
        assert a in active;
      }
      ghost var newest := Newest(actions, active);
      var id :| id in active && forall a :: a in active ==> actions[a].createdAt <= actions[id].createdAt;
      chosen := id;
      UndoAnswers(Db(), balances.rows, id);
      var action, unreverted := actions[id], actions;
      actions := actions[id := action.(reverted := true)];
      if PairOf(action.actor, action.target) in matches {
        actions := unreverted;
        return UndoRefused("UNDO_NOT_AVAILABLE_AFTER_MATCH"), chosen;
      }
      if action.kind != Skip {
        likes := likes - {Edge(user, action.target)};
        if action.kind == SuperLike {
          balances.Credit(user, Units(1, 0));
        }
      }
      return Reverted(actions[id]), chosen;
    }

    method ActivateBoost(user: UserId, now: Time, newBoost: BoostId) returns (result: BoostResult)
      modifies this, balances
      ensures (result, Db(), balances.rows) == Activate(old(Db()), old(balances.rows), user, now, newBoost)
      ensures BoostAnswer(old(Db()), Db(), old(balances.rows), balances.rows, user, now, newBoost, result)
    {
      BoostAnswers(Db(), balances.rows, user, now, newBoost);
      if user !in balances.rows || balances.rows[user].boosts <= 0 {
        return BoostRefused("BOOST_CREDITS_REQUIRED");
      }
      var unpaid := balances.rows;
      balances.Credit(user, Units(0, -1));
      if ActiveBoost(Db(), user, now) {
        balances.rows := unpaid;
        return BoostRefused("BOOST_ALREADY_ACTIVE");
      }
      boosts := boosts[newBoost := Boost(user, now, now + BOOST_MS)];
      return Boosted(now + BOOST_MS, balances.rows[user].boosts);
    }
  }

  lemma {:induction false} Newest(actions: map<ActionId, Action>, ids: set<ActionId>) returns (newest: ActionId)
    requires ids != {} && ids <= actions.Keys
    ensures newest in ids && forall a :: a in ids ==> actions[a].createdAt <= actions[newest].createdAt
    decreases ids
  {
    newest := Member(ids);
    if ids != {newest} {
      var other := Newest(actions, ids - {newest});
      if actions[other].createdAt > actions[newest].createdAt {
        newest := other;
      }
    }
  }
}
