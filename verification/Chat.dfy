/** Messages and read receipts of chat rooms: pages by keyset, unread counts, and the repository. */
module Chat {
  import opened Common

  type UserId = int
  type RoomId = int
  type MessageId = int

  const DEFAULT_PAGE: int := 50
  const MAX_PAGE: int := 100

  datatype Message = Message(
    room: RoomId, sender: Option<UserId>, text: string, key: Option<string>, createdAt: Time, deleted: bool)

  type Table = map<MessageId, Message>

  /** Where a user has read to: `last` becomes null when that message is erased. */
  datatype Receipt = Receipt(last: Option<MessageId>, readAt: Time)

  datatype Reader = Reader(room: RoomId, user: UserId)

  type Receipts = map<Reader, Receipt>

  predicate Visible(t: Table, id: MessageId, room: RoomId) {
    id in t && t[id].room == room && !t[id].deleted
  }

  function VisibleIn(t: Table, room: RoomId): set<MessageId> { set id | id in t && Visible(t, id, room) }

  /** Message order: (createdAt, id). */
  predicate Before(t: Table, a: MessageId, b: MessageId) {
    && a in t && b in t
    && (t[a].createdAt < t[b].createdAt || (t[a].createdAt == t[b].createdAt && a < b))
  }

  predicate IsFirst(t: Table, ids: set<MessageId>, id: MessageId) {
    id in ids && forall other :: other in ids && other != id ==> Before(t, id, other)
  }

  predicate IsLast(t: Table, ids: set<MessageId>, id: MessageId) {
    id in ids && forall other :: other in ids && other != id ==> Before(t, other, id)
  }

  lemma {:induction false} FirstExists(t: Table, ids: set<MessageId>) returns (first: MessageId)
    requires ids != {} && ids <= t.Keys
    ensures IsFirst(t, ids, first)
    decreases ids
  {
    first := Member(ids);
    if ids != {first} {
      var own := first;
      var other := FirstExists(t, ids - {own});
      if Before(t, other, own) {
        first := other;
      }
      forall i | i in ids && i != first
        ensures Before(t, first, i)
      {
        assert i == own || i in ids - {own};
      }
    }
  }

  lemma {:induction false} LastExists(t: Table, ids: set<MessageId>) returns (last: MessageId)
    requires ids != {} && ids <= t.Keys
    ensures IsLast(t, ids, last)
    decreases ids
  {
    last := Member(ids);
    if ids != {last} {
      var own := last;
      var other := LastExists(t, ids - {own});
      if Before(t, own, other) {
        last := other;
      }
      forall i | i in ids && i != last
        ensures Before(t, i, last)
      {
        assert i == own || i in ids - {own};
      }
    }
  }

  function First(t: Table, ids: set<MessageId>): (first: MessageId)
    requires ids != {} && ids <= t.Keys
    ensures IsFirst(t, ids, first)
  {
    assert exists id :: id in ids && IsFirst(t, ids, id) by {
      var first := FirstExists(t, ids);
    }
    var first :| first in ids && IsFirst(t, ids, first);
    first
  }

  /** ORDER BY createdAt, id LIMIT limit. */
  function FirstRows(t: Table, ids: set<MessageId>, limit: nat): seq<MessageId>
    requires ids <= t.Keys
    decreases limit
  {
    if ids == {} || limit == 0 then []
    else var first := First(t, ids); [first] + FirstRows(t, ids - {first}, limit - 1)
  }

  function Last(t: Table, ids: set<MessageId>): (last: MessageId)
    requires ids != {} && ids <= t.Keys
    ensures IsLast(t, ids, last)
  {
    assert exists id :: id in ids && IsLast(t, ids, id) by {
      var last := LastExists(t, ids);
    }
    var last :| last in ids && IsLast(t, ids, last);
    last
  }

  /** ORDER BY createdAt DESC, id DESC LIMIT limit. */
  function LastRows(t: Table, ids: set<MessageId>, limit: nat): seq<MessageId>
    requires ids <= t.Keys
    decreases limit
  {
    if ids == {} || limit == 0 then []
    else var last := Last(t, ids); [last] + LastRows(t, ids - {last}, limit - 1)
  }

  function Reverse<T>(s: seq<T>): seq<T> {
    if s == [] then [] else Reverse(s[1..]) + [s[0]]
  }

  datatype Cursor = NoCursor | After(id: MessageId) | BeforeId(id: MessageId)

  /** The rows that the cursor's comparison leaves; a cursor that is not visible in the room compares with
      null and leaves none. */
  function Candidates(t: Table, room: RoomId, cursor: Cursor): set<MessageId> {
    match cursor
    case NoCursor => VisibleIn(t, room)
    case After(c) => if Visible(t, c, room) then set id | id in VisibleIn(t, room) && Before(t, c, id) else {}
    case BeforeId(c) => if Visible(t, c, room) then set id | id in VisibleIn(t, room) && Before(t, id, c) else {}
  }

  /** One page: ascending after a cursor, otherwise the newest rows descending and then reversed. */
  function Page(t: Table, room: RoomId, cursor: Cursor, limit: nat): seq<MessageId> {
    var ids := Candidates(t, room, cursor);
    if cursor.After? then FirstRows(t, ids, limit) else Reverse(LastRows(t, ids, limit))
  }

  datatype PageResult = Rows(ids: seq<MessageId>) | PageError(code: string)

  /** The service's checks for a member of the room, and the page. */
  function ServicePage(
      t: Table, room: RoomId, first: Option<int>, after: Option<MessageId>, before: Option<MessageId>): PageResult
  {
    var wanted := if first.Some? then first.value else DEFAULT_PAGE;
    var limit := if wanted < MAX_PAGE then wanted else MAX_PAGE;
    if limit < 1 then PageError("MESSAGE_PAGE_SIZE_INVALID")
    else if after.Some? && before.Some? then PageError("MESSAGE_CURSOR_INVALID")
    else if after.Some? then
      if Visible(t, after.value, room) then Rows(Page(t, room, After(after.value), limit))
      else PageError("MESSAGE_CURSOR_INVALID")
    else if before.Some? then
      if Visible(t, before.value, room) then Rows(Page(t, room, BeforeId(before.value), limit))
      else PageError("MESSAGE_CURSOR_INVALID")
    else Rows(Page(t, room, NoCursor, limit))
  }

  // ---------------------------------------------------------- read receipts

  /** The comparison of the room list, with SQL's nulls: an equal moment and a null id is not greater. */
  predicate PastReceipt(createdAt: Time, id: MessageId, receipt: Receipt) {
    || (receipt.last.None? && createdAt > receipt.readAt)
    || createdAt > receipt.readAt
    || (createdAt == receipt.readAt && receipt.last.Some? && id > receipt.last.value)
  }

  predicate Unread(t: Table, receipts: Receipts, id: MessageId, reader: Reader) {
    && Visible(t, id, reader.room)
    && t[id].sender.Some? && t[id].sender.value != reader.user
    && (reader in receipts ==> PastReceipt(t[id].createdAt, id, receipts[reader]))
  }

  function UnreadMessages(t: Table, receipts: Receipts, reader: Reader): set<MessageId> {
    set id | id in t && Unread(t, receipts, id, reader)
  }

  /** The upsert's WHERE: the new receipt is strictly further, as far as SQL can tell. */
  predicate Further(last: MessageId, at: Time, current: Receipt) {
    at > current.readAt || (at == current.readAt && current.last.Some? && last > current.last.value)
  }

  function MarkedRead(t: Table, receipts: Receipts, reader: Reader): Receipts {
    var visible := VisibleIn(t, reader.room);
    if visible == {} then receipts
    else
      var last := Last(t, visible);
      if reader in receipts && !Further(last, t[last].createdAt, receipts[reader]) then receipts
      else receipts[reader := Receipt(Some(last), t[last].createdAt)]
  }

  function Erased(receipts: Receipts, id: MessageId): Receipts {
    map r | r in receipts :: if receipts[r].last == Some(id) then receipts[r].(last := None) else receipts[r]
  }

  // -------------------------------------------------------------- messages

  predicate SameSlot(m: Message, room: RoomId, sender: UserId, key: string) {
    m.room == room && m.sender == Some(sender) && m.key == Some(key)
  }

  /** The unique constraint: nulls never conflict. */
  predicate KeysUnique(t: Table) {
    forall a, b :: a in t && b in t && Conflict(t[a], t[b]) ==> a == b
  }

  predicate Conflict(a: Message, b: Message) {
    a.room == b.room && a.sender.Some? && a.sender == b.sender && a.key.Some? && a.key == b.key
  }

  function SlotOwner(t: Table, room: RoomId, sender: UserId, key: string): (found: Option<MessageId>)
    requires KeysUnique(t)
    ensures found.Some? ==> found.value in t && SameSlot(t[found.value], room, sender, key)
    ensures found.None? ==> forall id :: id in t ==> !SameSlot(t[id], room, sender, key)
  {
    if exists id :: id in t && SameSlot(t[id], room, sender, key)
    then var id :| id in t && SameSlot(t[id], room, sender, key); Some(id)
    else None
  }

  /** createMessage: insert, or return the message that already has the key, deleted or not. */
  function Created(
      t: Table, newId: MessageId, room: RoomId, sender: UserId, text: string, key: Option<string>, now: Time)
    : (MessageId, bool, Table)
    requires KeysUnique(t)
  {
    var owner := if key.Some? then SlotOwner(t, room, sender, key.value) else None;
    if owner.Some? then (owner.value, false, t)
    else (newId, true, t[newId := Message(room, Some(sender), text, key, now, false)])
  }

  function SoftDeleted(t: Table, id: MessageId, sender: UserId): (bool, Table) {
    if id in t && t[id].sender == Some(sender) && !t[id].deleted then (true, t[id := t[id].(deleted := true)])
    else (false, t)
  }

  function Edited(t: Table, id: MessageId, sender: UserId, text: string): (bool, Table) {
    if id in t && t[id].sender == Some(sender) && !t[id].deleted then (true, t[id := t[id].(text := text)])
    else (false, t)
  }

  // ------------------------------------------------- what the operations owe their callers

  /** A message is created if and only if the sender has not used the key in the room; otherwise the one that
      has the key is answered and nothing changes. */
  ghost predicate CreateAnswer(
    t: Table, after: Table, newId: MessageId, room: RoomId, sender: UserId, text: string, key: Option<string>,
    now: Time, id: MessageId, created: bool)
  {
    && (created <==>
          key.None? || forall m :: m in t ==> !(t[m].room == room && t[m].sender == Some(sender) && t[m].key == key))
    && (created ==> id == newId && after == t[newId := Message(room, Some(sender), text, key, now, false)])
    && (!created ==>
          after == t && id in t && t[id].room == room && t[id].sender == Some(sender) && t[id].key == key)
  }

  lemma CreateAnswers(
      t: Table, newId: MessageId, room: RoomId, sender: UserId, text: string, key: Option<string>, now: Time)
    requires KeysUnique(t)
    ensures
      var (id, created, after) := Created(t, newId, room, sender, text, key, now);
      CreateAnswer(t, after, newId, room, sender, text, key, now, id, created)
  {
    if key.Some? {
      var owner := SlotOwner(t, room, sender, key.value);
      assert owner.None? ==> forall m :: m in t ==> !SameSlot(t[m], room, sender, key.value);
    }
  }

  /** Only its sender changes a message, and only while it is shown; `changed` is what it becomes. */
  predicate OwnMessageAnswer(t: Table, after: Table, id: MessageId, sender: UserId, changed: Message, done: bool) {
    && (done <==> id in t && t[id].sender == Some(sender) && !t[id].deleted)
    && after == if done then t[id := changed] else t
  }

  /** The receipt moves to the newest message that is shown if that lies further, and no other receipt moves. */
  ghost predicate MarkAnswer(t: Table, receipts: Receipts, after: Receipts, reader: Reader) {
    && after.Keys <= receipts.Keys + {reader}
    && (forall r :: r in receipts && r != reader ==> r in after && after[r] == receipts[r])
    && ((forall m :: m in t ==> t[m].room != reader.room || t[m].deleted) ==> after == receipts)
    && (forall newest :: IsNewestShown(t, reader.room, newest) ==>
          var at := t[newest].createdAt;
          reader in after
          && after[reader]
             == if reader in receipts && !(receipts[reader].readAt < at)
                   && !(receipts[reader].readAt == at && receipts[reader].last.Some? && receipts[reader].last.value < newest)
                then receipts[reader] else Receipt(Some(newest), at))
  }

  predicate IsNewestShown(t: Table, room: RoomId, newest: MessageId) {
    && newest in t && t[newest].room == room && !t[newest].deleted
    && forall m :: m in t && t[m].room == room && !t[m].deleted && m != newest ==>
         t[m].createdAt < t[newest].createdAt || (t[m].createdAt == t[newest].createdAt && m < newest)
  }

  lemma MarkAnswers(t: Table, receipts: Receipts, reader: Reader)
    ensures MarkAnswer(t, receipts, MarkedRead(t, receipts, reader), reader)
  {
    var visible := VisibleIn(t, reader.room);
    forall newest | IsNewestShown(t, reader.room, newest)
      ensures visible != {} && newest == Last(t, visible)
    {
      assert newest in visible;
      assert Last(t, visible) in visible;
    }
    if visible != {} {
      assert Last(t, visible) in visible;
    }
  }

  /** A page is refused if and only if fewer than one message is asked for, two cursors are given, or the
      cursor is not a message shown in the room; the size is checked first. */
  lemma PageRefusedIff(t: Table, room: RoomId, first: Option<int>, after: Option<MessageId>, before: Option<MessageId>)
    ensures
      var result := ServicePage(t, room, first, after, before);
      var tooFew := first.Some? && first.value < 1;
      var badCursor := (after.Some? && before.Some?)
        || (after.Some? && !(after.value in t && t[after.value].room == room && !t[after.value].deleted))
        || (before.Some? && !(before.value in t && t[before.value].room == room && !t[before.value].deleted));
      && (result == PageError("MESSAGE_PAGE_SIZE_INVALID") <==> tooFew)
      && (result == PageError("MESSAGE_CURSOR_INVALID") <==> !tooFew && badCursor)
      && (result.Rows? <==> !tooFew && !badCursor)
    ensures first.None? ==> ServicePage(t, room, first, after, before) == ServicePage(t, room, Some(50), after, before)
    ensures
      first.Some? && 100 < first.value ==>
        ServicePage(t, room, first, after, before) == ServicePage(t, room, Some(100), after, before)
  {}

  class ChatRepository {
    var messages: Table
    var receipts: Receipts

    constructor ()
      ensures messages == map[] && receipts == map[]
    {
      messages, receipts := map[], map[];
    }

    method CreateMessage(
        newId: MessageId, room: RoomId, sender: UserId, text: string, key: Option<string>, now: Time)
      returns (id: MessageId, created: bool)
      requires KeysUnique(messages)
      modifies this`messages
      ensures (id, created, messages) == Created(old(messages), newId, room, sender, text, key, now)
      ensures CreateAnswer(old(messages), messages, newId, room, sender, text, key, now, id, created)
    {
      CreateAnswers(messages, newId, room, sender, text, key, now);
      if key.Some? {
        var owner := SlotOwner(messages, room, sender, key.value);
        if owner.Some? {
          return owner.value, false;
        }
      }
      messages := messages[newId := Message(room, Some(sender), text, key, now, false)];
      return newId, true;
    }

    method EditMessage(id: MessageId, sender: UserId, text: string) returns (edited: bool)
      modifies this`messages
      ensures (edited, messages) == Edited(old(messages), id, sender, text)
      ensures id in old(messages) ==>
        OwnMessageAnswer(old(messages), messages, id, sender, old(messages)[id].(text := text), edited)
      ensures id !in old(messages) ==> !edited && messages == old(messages)
    {
      edited := id in messages && messages[id].sender == Some(sender) && !messages[id].deleted;
      if edited {
        messages := messages[id := messages[id].(text := text)];
      }
    }

    method DeleteMessage(id: MessageId, sender: UserId) returns (deleted: bool)
      modifies this`messages
      ensures (deleted, messages) == SoftDeleted(old(messages), id, sender)
      ensures id in old(messages) ==>
        OwnMessageAnswer(old(messages), messages, id, sender, old(messages)[id].(deleted := true), deleted)
      ensures id !in old(messages) ==> !deleted && messages == old(messages)
    {
      deleted := id in messages && messages[id].sender == Some(sender) && !messages[id].deleted;
      if deleted {
        messages := messages[id := messages[id].(deleted := true)];
      }
    }

    method MarkRoomRead(room: RoomId, user: UserId)
      modifies this`receipts
      ensures receipts == MarkedRead(messages, old(receipts), Reader(room, user))
      ensures UnreadMessages(messages, receipts, Reader(room, user)) == {}
      ensures MarkAnswer(messages, old(receipts), receipts, Reader(room, user))
    {
      MarkAnswers(messages, receipts, Reader(room, user));
      var reader := Reader(room, user);
      MarkingReadsAll(messages, receipts, reader);
      var visible := VisibleIn(messages, room);
      if visible == {} {
        return;
      }
      var last := Last(messages, visible);
      var at := messages[last].createdAt;
      if reader !in receipts || Further(last, at, receipts[reader]) {
        receipts := receipts[reader := Receipt(Some(last), at)];
      }
    }
  }

  /** Marking a room read leaves nothing unread, in every state. */
  lemma MarkingReadsAll(t: Table, receipts: Receipts, reader: Reader)
    ensures UnreadMessages(t, MarkedRead(t, receipts, reader), reader) == {}
  {
    var after := MarkedRead(t, receipts, reader);
    forall id | id in t
      ensures !Unread(t, after, id, reader)
    {
      if Visible(t, id, reader.room) {
        assert id in VisibleIn(t, reader.room);
      }
    }
  }
}
