/** Receipts and message keys over any run of sends, edits, deletions, erasures and reads. */
module ReadReceipts {
  import opened Common
  import opened Chat

  datatype System = System(messages: Table, receipts: Receipts, issued: set<MessageId>)

  const EMPTY_SYSTEM := System(map[], map[], {})

  /** Erasing removes the row itself, so the receipts that pointed at it keep only their moment. */
  datatype Event =
    | Send(id: MessageId, room: RoomId, sender: UserId, text: string, key: Option<string>, now: Time)
    | Edit(id: MessageId, sender: UserId, text: string)
    | Delete(id: MessageId, sender: UserId)
    | Erase(id: MessageId)
    | Read(reader: Reader)

  function Step(s: System, e: Event): System {
    match e
    case Send(id, room, sender, text, key, now) =>
      if id in s.issued || !KeysUnique(s.messages) then s
      else s.(messages := Created(s.messages, id, room, sender, text, key, now).2, issued := s.issued + {id})
    case Edit(id, sender, text) => s.(messages := Edited(s.messages, id, sender, text).1)
    case Delete(id, sender) => s.(messages := SoftDeleted(s.messages, id, sender).1)
    case Erase(id) => s.(messages := s.messages - {id}, receipts := Erased(s.receipts, id))
    case Read(reader) => s.(receipts := MarkedRead(s.messages, s.receipts, reader))
  }

  function Run(s: System, es: seq<Event>): System
    decreases |es|
  {
    if es == [] then s else Run(Step(s, es[0]), es[1..])
  }

  /** `b` is at least as far as `a`; a null id stands for everything up to its moment. */
  predicate NotBehind(a: Receipt, b: Receipt) {
    || a.readAt < b.readAt
    || (a.readAt == b.readAt && (b.last.None? || (a.last.Some? && a.last.value <= b.last.value)))
  }

  ghost predicate Inv(s: System) {
    && KeysUnique(s.messages)
    && s.messages.Keys <= s.issued
    && (forall r :: r in s.receipts && s.receipts[r].last.Some? ==>
          s.receipts[r].last.value in s.messages
          && s.messages[s.receipts[r].last.value].createdAt == s.receipts[r].readAt)
  }

  lemma StepKeepsInv(s: System, e: Event)
    requires Inv(s)
    ensures Inv(Step(s, e))
  {}

  lemma {:induction false} RunKeepsInv(s: System, es: seq<Event>)
    requires Inv(s)
    ensures Inv(Run(s, es))
    decreases |es|
  {
    if es != [] {
      StepKeepsInv(s, es[0]);
      RunKeepsInv(Step(s, es[0]), es[1..]);
    }
  }

  lemma ReceiptStep(s: System, e: Event, reader: Reader)
    requires reader in s.receipts
    ensures reader in Step(s, e).receipts && NotBehind(s.receipts[reader], Step(s, e).receipts[reader])
  {}

  /** A receipt never moves backwards. */
  lemma {:induction false} ReceiptsNeverMoveBack(s: System, es: seq<Event>, reader: Reader)
    requires reader in s.receipts
    ensures reader in Run(s, es).receipts && NotBehind(s.receipts[reader], Run(s, es).receipts[reader])
    decreases |es|
  {
    if es != [] {
      ReceiptStep(s, es[0], reader);
      ReceiptsNeverMoveBack(Step(s, es[0]), es[1..], reader);
    }
  }

  lemma ReadStep(s: System, e: Event, id: MessageId, reader: Reader)
    requires id in s.issued && !Unread(s.messages, s.receipts, id, reader)
    ensures !Unread(Step(s, e).messages, Step(s, e).receipts, id, reader)
  {
    if reader in s.receipts {
      ReceiptStep(s, e, reader);
    }
  }

  /** What has been read stays read. */
  lemma {:induction false} ReadStaysRead(s: System, es: seq<Event>, id: MessageId, reader: Reader)
    requires id in s.issued && !Unread(s.messages, s.receipts, id, reader)
    ensures !Unread(Run(s, es).messages, Run(s, es).receipts, id, reader)
    decreases |es|
  {
    if es != [] {
      ReadStep(s, es[0], id, reader);
      ReadStaysRead(Step(s, es[0]), es[1..], id, reader);
    }
  }

  /** Right after a read nothing is unread, in every reachable state and whatever was erased before; from
      then on only messages that were sent later can be. */
  lemma OnlyLaterMessagesAreUnread(s: System, es: seq<Event>, reader: Reader)
    ensures
      var read := Step(s, Read(reader));
      && UnreadMessages(read.messages, read.receipts, reader) == {}
      && (Inv(s) ==>
            UnreadMessages(Run(read, es).messages, Run(read, es).receipts, reader) !! s.issued)
  {
    MarkingReadsAll(s.messages, s.receipts, reader);
    var read := Step(s, Read(reader));
    if Inv(s) {
      forall id | id in s.issued
        ensures !Unread(Run(read, es).messages, Run(read, es).receipts, id, reader)
      {
        assert id in read.messages ==> id !in UnreadMessages(read.messages, read.receipts, reader);
        ReadStaysRead(read, es, id, reader);
      }
    }
  }

  /** A message that arrives counts as unread exactly when it comes from someone else and its moment and id
      lie past the receipt: one that was dated earlier but committed late does not. */
  lemma ArrivalIsUnreadIff(s: System, e: Event, reader: Reader)
    requires Inv(s) && e.Send? && e.id !in s.issued && e.room == reader.room && e.key.None?
    ensures
      var t := Step(s, e);
      && e.id in t.messages
      && (Unread(t.messages, t.receipts, e.id, reader)
          <==> e.sender != reader.user && (reader in s.receipts ==> PastReceipt(e.now, e.id, s.receipts[reader])))
      && (forall id :: id != e.id ==>
            (Unread(t.messages, t.receipts, id, reader) <==> Unread(s.messages, s.receipts, id, reader)))
  {}

  /** In every reachable state a member's unread messages are those shown in the room that others sent after
      the last message read, by moment and id, or after its moment once that message is erased. */
  lemma UnreadAreTheLaterOnes(es: seq<Event>, id: MessageId, reader: Reader)
    ensures
      var s := Run(EMPTY_SYSTEM, es);
      id in UnreadMessages(s.messages, s.receipts, reader) <==>
        && id in s.messages && s.messages[id].room == reader.room && !s.messages[id].deleted
        && s.messages[id].sender.Some? && s.messages[id].sender.value != reader.user
        && (reader in s.receipts ==>
              if s.receipts[reader].last.Some? then Before(s.messages, s.receipts[reader].last.value, id)
              else s.receipts[reader].readAt < s.messages[id].createdAt)
  {
    RunKeepsInv(EMPTY_SYSTEM, es);
  }

  // ------------------------------------------------------------- own messages

  /** The event edits the message: its sender does, while it is shown. */
  predicate Edits(s: System, e: Event, id: MessageId) {
    e.Edit? && e.id == id && id in s.messages && s.messages[id].sender == Some(e.sender) && !s.messages[id].deleted
  }

  predicate Hides(s: System, e: Event, id: MessageId) {
    e.Delete? && e.id == id && id in s.messages && s.messages[id].sender == Some(e.sender)
  }

  function LastEdit(s: System, es: seq<Event>, id: MessageId): Option<string>
    decreases |es|
  {
    if es == [] then None
    else
      var later := LastEdit(Step(s, es[0]), es[1..], id);
      if later.Some? then later else if Edits(s, es[0], id) then Some(es[0].text) else None
  }

  predicate HiddenIn(s: System, es: seq<Event>, id: MessageId)
    decreases |es|
  {
    es != [] && (Hides(s, es[0], id) || HiddenIn(Step(s, es[0]), es[1..], id))
  }

  lemma MessageStep(s: System, e: Event, id: MessageId)
    requires id in s.issued && id in s.messages && id in Step(s, e).messages
    ensures
      var m, n := s.messages[id], Step(s, e).messages[id];
      && n.text == (if Edits(s, e, id) then e.text else m.text)
      && (n.deleted <==> m.deleted || Hides(s, e, id))
      && n.sender == m.sender && n.room == m.room && n.createdAt == m.createdAt && n.key == m.key
  {}

  lemma {:induction false} GoneStaysGone(s: System, es: seq<Event>, id: MessageId)
    requires id in s.issued && id !in s.messages
    ensures id !in Run(s, es).messages
    decreases |es|
  {
    if es != [] {
      GoneStaysGone(Step(s, es[0]), es[1..], id);
    }
  }

  /** Over every run a message that is still there shows its sender's last edit, and is hidden if and only if
      its sender hid it; nobody else changes it. */
  lemma {:induction false} OnlySendersChangeMessages(s: System, es: seq<Event>, id: MessageId)
    requires id in s.issued && id in s.messages && id in Run(s, es).messages
    ensures
      var m, n := s.messages[id], Run(s, es).messages[id];
      && n.text == (if LastEdit(s, es, id).Some? then LastEdit(s, es, id).value else m.text)
      && (n.deleted <==> m.deleted || HiddenIn(s, es, id))
      && n.sender == m.sender && n.room == m.room && n.createdAt == m.createdAt && n.key == m.key
    decreases |es|
  {
    if es != [] {
      if id !in Step(s, es[0]).messages {
        GoneStaysGone(Step(s, es[0]), es[1..], id);
      }
      MessageStep(s, es[0], id);
      OnlySendersChangeMessages(Step(s, es[0]), es[1..], id);
    }
  }

  // ---------------------------------------------------------------- keys

  /** After any run, a repeated send under one key finds the first message, deleted or not, and changes
      nothing: at most one message a room, sender and key. */
  lemma ResendingIsIdempotent(
      es: seq<Event>, id: MessageId, id': MessageId, room: RoomId, sender: UserId, text: string, text': string,
      key: string, now: Time, now': Time)
    ensures
      var s := Run(EMPTY_SYSTEM, es);
      && KeysUnique(s.messages)
      && var (first, _, t) := Created(s.messages, id, room, sender, text, Some(key), now);
         id !in s.messages ==>
           && KeysUnique(t) && first in t && SameSlot(t[first], room, sender, key)
           && Created(t, id', room, sender, text', Some(key), now') == (first, false, t)
  {
    RunKeepsInv(EMPTY_SYSTEM, es);
    var s := Run(EMPTY_SYSTEM, es);
    if id !in s.messages {
      var (first, _, t) := Created(s.messages, id, room, sender, text, Some(key), now);
      CreationKeepsKeys(s.messages, id, room, sender, text, Some(key), now);
      OwnerIsUnique(t, first, room, sender, key);
    }
  }

  lemma CreationKeepsKeys(
      t: Table, id: MessageId, room: RoomId, sender: UserId, text: string, key: Option<string>, now: Time)
    requires KeysUnique(t) && id !in t
    ensures KeysUnique(Created(t, id, room, sender, text, key, now).2)
  {}

  lemma OwnerIsUnique(t: Table, id: MessageId, room: RoomId, sender: UserId, key: string)
    requires KeysUnique(t) && id in t && SameSlot(t[id], room, sender, key)
    ensures SlotOwner(t, room, sender, key) == Some(id)
  {
    var owner := SlotOwner(t, room, sender, key);
    assert owner.Some?;
    assert Conflict(t[owner.value], t[id]);
  }
}
