/** Walking a room page by page shows every visible message exactly once, in order. */
module ChatPaging {
  import opened Common
  import opened Chat

  /** `rows` is the set in message order, each id once. */
  ghost predicate Lists(t: Table, rows: seq<MessageId>, ids: set<MessageId>) {
    && (forall i :: 0 <= i < |rows| ==> rows[i] in ids)
    && (forall id :: id in ids ==> id in rows)
    && (forall i, j :: 0 <= i < j < |rows| ==> Before(t, rows[i], rows[j]))
  }

  function Min(a: int, b: int): int { if a < b then a else b }

  lemma TailLists(t: Table, rows: seq<MessageId>, ids: set<MessageId>)
    requires Lists(t, rows, ids) && rows != []
    ensures Lists(t, rows[1..], ids - {rows[0]})
  {
    forall id | id in ids - {rows[0]}
      ensures id in rows[1..]
    {
      var i :| 0 <= i < |rows| && rows[i] == id;
      assert rows[1..][i - 1] == id;
    }
    forall i | 0 <= i < |rows| - 1
      ensures rows[1..][i] in ids - {rows[0]}
    {
      assert Before(t, rows[0], rows[i + 1]);
    }
  }

  lemma InitLists(t: Table, rows: seq<MessageId>, ids: set<MessageId>)
    requires Lists(t, rows, ids) && rows != []
    ensures Lists(t, rows[..|rows| - 1], ids - {rows[|rows| - 1]})
  {
    var n := |rows| - 1;
    forall id | id in ids - {rows[n]}
      ensures id in rows[..n]
    {
      var i :| 0 <= i < |rows| && rows[i] == id;
      assert rows[..n][i] == id;
    }
    forall i | 0 <= i < n
      ensures rows[..n][i] in ids - {rows[n]}
    {
      assert Before(t, rows[i], rows[n]);
    }
  }

  lemma EmptyListing(t: Table, rows: seq<MessageId>, ids: set<MessageId>)
    requires Lists(t, rows, ids)
    ensures rows == [] <==> ids == {}
  {
    if rows != [] {
      assert rows[0] in ids;
    }
    if ids != {} {
      var id := Member(ids);
      assert id in rows;
    }
  }

  lemma FirstIsHead(t: Table, rows: seq<MessageId>, ids: set<MessageId>, first: MessageId)
    requires Lists(t, rows, ids) && IsFirst(t, ids, first)
    ensures rows != [] && rows[0] == first
  {
    var i :| 0 <= i < |rows| && rows[i] == first;
    assert i > 0 ==> Before(t, rows[0], rows[i]);
  }

  lemma LastIsEnd(t: Table, rows: seq<MessageId>, ids: set<MessageId>, last: MessageId)
    requires Lists(t, rows, ids) && IsLast(t, ids, last)
    ensures rows != [] && rows[|rows| - 1] == last
  {
    var i :| 0 <= i < |rows| && rows[i] == last;
    assert i < |rows| - 1 ==> Before(t, rows[i], rows[|rows| - 1]);
  }

  /** Ascending and limited is a prefix of the whole listing. */
  lemma {:induction false} FirstRowsArePrefix(t: Table, rows: seq<MessageId>, ids: set<MessageId>, limit: nat)
    requires ids <= t.Keys && Lists(t, rows, ids)
    ensures FirstRows(t, ids, limit) == rows[..Min(limit, |rows|)]
    decreases limit
  {
    EmptyListing(t, rows, ids);
    if rows != [] && limit > 0 {
      var first := First(t, ids);
      FirstIsHead(t, rows, ids, first);
      TailLists(t, rows, ids);
      FirstRowsArePrefix(t, rows[1..], ids - {first}, limit - 1);
      assert rows[..Min(limit, |rows|)] == [rows[0]] + rows[1..][..Min(limit - 1, |rows| - 1)];
    }
  }

  lemma SplitSuffix<T>(rows: seq<T>, k: nat)
    requires 1 <= k <= |rows|
    ensures rows[|rows| - k..] == rows[..|rows| - 1][|rows| - k..] + [rows[|rows| - 1]]
  {}

  lemma ReverseCons<T>(x: T, s: seq<T>)
    ensures Reverse([x] + s) == Reverse(s) + [x]
  {
    assert ([x] + s)[1..] == s;
  }

  /** Descending, limited and reversed is a suffix of the whole listing. */
  lemma {:induction false} LastRowsAreSuffix(t: Table, rows: seq<MessageId>, ids: set<MessageId>, limit: nat)
    requires ids <= t.Keys && Lists(t, rows, ids)
    ensures Reverse(LastRows(t, ids, limit)) == rows[|rows| - Min(limit, |rows|)..]
    decreases limit
  {
    EmptyListing(t, rows, ids);
    if rows != [] && limit > 0 {
      var n := |rows| - 1;
      var last := Last(t, ids);
      LastIsEnd(t, rows, ids, last);
      InitLists(t, rows, ids);
      LastRowsAreSuffix(t, rows[..n], ids - {last}, limit - 1);
      SplitSuffix(rows, Min(limit, |rows|));
      ReverseCons(last, LastRows(t, ids - {last}, limit - 1));
    }
  }

  lemma {:induction false} ListingExists(t: Table, ids: set<MessageId>) returns (rows: seq<MessageId>)
    requires ids <= t.Keys
    ensures Lists(t, rows, ids) && |rows| == |ids|
    decreases ids
  {
    if ids == {} {
      rows := [];
    } else {
      var first := FirstExists(t, ids);
      var rest := ListingExists(t, ids - {first});
      rows := [first] + rest;
      forall i, j | 0 <= i < j < |rows|
        ensures Before(t, rows[i], rows[j])
      {
        assert rows[j] == rest[j - 1];
      }
    }
  }

  lemma CandidatesAfter(t: Table, room: RoomId, rows: seq<MessageId>, i: nat)
    requires Lists(t, rows, VisibleIn(t, room)) && i < |rows|
    ensures Lists(t, rows[i + 1..], Candidates(t, room, After(rows[i])))
  {
    var ids := Candidates(t, room, After(rows[i]));
    forall id | id in ids
      ensures id in rows[i + 1..]
    {
      var j :| 0 <= j < |rows| && rows[j] == id;
      assert j > i;
      assert rows[i + 1..][j - i - 1] == id;
    }
  }

  lemma CandidatesBefore(t: Table, room: RoomId, rows: seq<MessageId>, i: nat)
    requires Lists(t, rows, VisibleIn(t, room)) && i < |rows|
    ensures Lists(t, rows[..i], Candidates(t, room, BeforeId(rows[i])))
  {
    var ids := Candidates(t, room, BeforeId(rows[i]));
    forall id | id in ids
      ensures id in rows[..i]
    {
      var j :| 0 <= j < |rows| && rows[j] == id;
      assert j < i;
      assert rows[..i][j] == id;
    }
  }

  /** What the service answers on a room whose visible messages are `rows`: slices of them. */
  lemma PageAfter(t: Table, room: RoomId, rows: seq<MessageId>, i: nat, size: int)
    requires Lists(t, rows, VisibleIn(t, room)) && i < |rows| && size >= 1
    ensures ServicePage(t, room, Some(size), Some(rows[i]), None)
         == Rows(rows[i + 1..][..Min(Min(size, MAX_PAGE), |rows| - i - 1)])
  {
    CandidatesAfter(t, room, rows, i);
    FirstRowsArePrefix(t, rows[i + 1..], Candidates(t, room, After(rows[i])), Min(size, MAX_PAGE));
  }

  lemma PageBefore(t: Table, room: RoomId, rows: seq<MessageId>, i: nat, size: int)
    requires Lists(t, rows, VisibleIn(t, room)) && i < |rows| && size >= 1
    ensures ServicePage(t, room, Some(size), None, Some(rows[i]))
         == Rows(rows[..i][i - Min(Min(size, MAX_PAGE), i)..])
  {
    CandidatesBefore(t, room, rows, i);
    LastRowsAreSuffix(t, rows[..i], Candidates(t, room, BeforeId(rows[i])), Min(size, MAX_PAGE));
  }

  lemma NewestPage(t: Table, room: RoomId, rows: seq<MessageId>, size: int)
    requires Lists(t, rows, VisibleIn(t, room)) && size >= 1
    ensures ServicePage(t, room, Some(size), None, None)
         == Rows(rows[|rows| - Min(Min(size, MAX_PAGE), |rows|)..])
  {
    LastRowsAreSuffix(t, rows, VisibleIn(t, room), Min(size, MAX_PAGE));
  }

  // ------------------------------------------------------------------ walks

  function RowsOf(page: PageResult): seq<MessageId> { if page.Rows? then page.ids else [] }

  /** Ask for the page after the last message shown, and append it. */
  function ShowMore(t: Table, room: RoomId, shown: seq<MessageId>, size: int): (more: seq<MessageId>)
    requires shown != []
    ensures more != []
  {
    shown + RowsOf(ServicePage(t, room, Some(size), Some(shown[|shown| - 1]), None))
  }

  function WalkOn(t: Table, room: RoomId, shown: seq<MessageId>, sizes: seq<int>): (all: seq<MessageId>)
    requires shown != []
    ensures all != []
    decreases |sizes|
  {
    if sizes == [] then shown else WalkOn(t, room, ShowMore(t, room, shown, sizes[0]), sizes[1..])
  }

  /** Ask for the page before the first message shown, and put it in front. */
  function ShowEarlier(t: Table, room: RoomId, shown: seq<MessageId>, size: int): (more: seq<MessageId>)
    requires shown != []
    ensures more != []
  {
    RowsOf(ServicePage(t, room, Some(size), None, Some(shown[0]))) + shown
  }

  function WalkBack(t: Table, room: RoomId, shown: seq<MessageId>, sizes: seq<int>): seq<MessageId>
    requires shown != []
    decreases |sizes|
  {
    if sizes == [] then shown else WalkBack(t, room, ShowEarlier(t, room, shown, sizes[0]), sizes[1..])
  }

  ghost predicate PageSizes(sizes: seq<int>) { forall i :: 0 <= i < |sizes| ==> sizes[i] >= 1 }

  lemma JoinSlices<T>(rows: seq<T>, from: nat, to: nat, more: nat)
    requires from < to && to + more <= |rows|
    ensures rows[from..to] + rows[to..][..more] == rows[from..to + more]
    ensures rows[from..to][|rows[from..to]| - 1] == rows[to - 1]
  {}

  lemma MoreIsASlice(t: Table, room: RoomId, rows: seq<MessageId>, from: nat, to: nat, size: int)
    requires Lists(t, rows, VisibleIn(t, room)) && from < to <= |rows| && size >= 1
    ensures ShowMore(t, room, rows[from..to], size) == rows[from..to + Min(Min(size, MAX_PAGE), |rows| - to)]
  {
    var more := Min(Min(size, MAX_PAGE), |rows| - to);
    var page := ServicePage(t, room, Some(size), Some(rows[to - 1]), None);
    PageAfter(t, room, rows, to - 1, size);
    assert RowsOf(page) == rows[to..][..more];
    JoinSlices(rows, from, to, more);
  }

  lemma {:induction false} WalkOnShows(
      t: Table, room: RoomId, rows: seq<MessageId>, from: nat, to: nat, shown: seq<MessageId>, sizes: seq<int>)
    returns (end: nat)
    requires Lists(t, rows, VisibleIn(t, room)) && from < to <= |rows| && PageSizes(sizes) && shown == rows[from..to]
    ensures to <= end <= |rows| && (end == |rows| || end >= to + |sizes|)
    ensures WalkOn(t, room, shown, sizes) == rows[from..end]
    decreases |sizes|
  {
    if sizes == [] {
      end := to;
    } else {
      MoreIsASlice(t, room, rows, from, to, sizes[0]);
      var more := Min(Min(sizes[0], MAX_PAGE), |rows| - to);
      end := WalkOnShows(t, room, rows, from, to + more, rows[from..to + more], sizes[1..]);
    }
  }

  lemma EarlierIsASlice(t: Table, room: RoomId, rows: seq<MessageId>, from: nat, size: int)
    requires Lists(t, rows, VisibleIn(t, room)) && from < |rows| && size >= 1
    ensures ShowEarlier(t, room, rows[from..], size) == rows[from - Min(Min(size, MAX_PAGE), from)..]
  {
    var more := Min(Min(size, MAX_PAGE), from);
    PageBefore(t, room, rows, from, size);
    var page := ServicePage(t, room, Some(size), None, Some(rows[from]));
    assert page == Rows(rows[..from][from - more..]);
    assert rows[..from][from - more..] + rows[from..] == rows[from - more..];
  }

  lemma {:induction false} WalkBackShows(t: Table, room: RoomId, rows: seq<MessageId>, from: nat, sizes: seq<int>)
    returns (start: nat)
    requires Lists(t, rows, VisibleIn(t, room)) && from < |rows| && PageSizes(sizes)
    ensures start <= from && (start == 0 || start + |sizes| <= from)
    ensures WalkBack(t, room, rows[from..], sizes) == rows[start..]
    decreases |sizes|
  {
    if sizes == [] {
      start := from;
    } else {
      EarlierIsASlice(t, room, rows, from, sizes[0]);
      var more := Min(Min(sizes[0], MAX_PAGE), from);
      start := WalkBackShows(t, room, rows, from - more, sizes[1..]);
    }
  }

  /** The newest page and then, with any page sizes, as many pages back as there are messages: exactly the
      visible messages, each once, in order. */
  lemma BrowsingBackIsComplete(t: Table, room: RoomId, size: int, sizes: seq<int>)
    requires size >= 1 && PageSizes(sizes) && |sizes| >= |VisibleIn(t, room)|
    ensures
      var newest := RowsOf(ServicePage(t, room, Some(size), None, None));
      if VisibleIn(t, room) == {} then newest == []
      else newest != [] && Lists(t, WalkBack(t, room, newest, sizes), VisibleIn(t, room))
  {
    var rows := ListingExists(t, VisibleIn(t, room));
    NewestPage(t, room, rows, size);
    EmptyListing(t, rows, VisibleIn(t, room));
    if rows != [] {
      var start := WalkBackShows(t, room, rows, |rows| - Min(Min(size, MAX_PAGE), |rows|), sizes);
      assert rows[start..] == rows;
    }
  }

  lemma WalkReachesTheEnd(t: Table, room: RoomId, rows: seq<MessageId>, i: nat, sizes: seq<int>)
    requires Lists(t, rows, VisibleIn(t, room)) && i < |rows| <= |sizes| && PageSizes(sizes)
    ensures WalkOn(t, room, [rows[i]], sizes) == rows[i..]
  {
    assert rows[i..i + 1] == [rows[i]];
    var end := WalkOnShows(t, room, rows, i, i + 1, [rows[i]], sizes);
    assert rows[i..end] == rows[i..];
  }

  /** From any visible message on, with any page sizes: exactly the messages after it, in order. */
  lemma BrowsingOnIsComplete(t: Table, room: RoomId, cursor: MessageId, sizes: seq<int>)
    requires Visible(t, cursor, room) && PageSizes(sizes) && |sizes| >= |VisibleIn(t, room)|
    ensures
      var shown := WalkOn(t, room, [cursor], sizes);
      shown[0] == cursor && Lists(t, shown[1..], Candidates(t, room, After(cursor)))
  {
    var rows := ListingExists(t, VisibleIn(t, room));
    assert cursor in VisibleIn(t, room);
    var i :| 0 <= i < |rows| && rows[i] == cursor;
    WalkReachesTheEnd(t, room, rows, i, sizes);
    CandidatesAfter(t, room, rows, i);
    assert rows[i..][1..] == rows[i + 1..];
  }

  /** A walk is at its end exactly when a page comes back empty. */
  lemma EmptyPageMeansDone(t: Table, room: RoomId, cursor: MessageId, size: int)
    requires Visible(t, cursor, room) && size >= 1
    ensures RowsOf(ServicePage(t, room, Some(size), Some(cursor), None)) == []
       <==> Candidates(t, room, After(cursor)) == {}
    ensures RowsOf(ServicePage(t, room, Some(size), None, Some(cursor))) == []
       <==> Candidates(t, room, BeforeId(cursor)) == {}
  {
    var rows := ListingExists(t, VisibleIn(t, room));
    assert cursor in VisibleIn(t, room);
    var i :| 0 <= i < |rows| && rows[i] == cursor;
    PageAfter(t, room, rows, i, size);
    PageBefore(t, room, rows, i, size);
    CandidatesAfter(t, room, rows, i);
    CandidatesBefore(t, room, rows, i);
    EmptyListing(t, rows[i + 1..], Candidates(t, room, After(cursor)));
    EmptyListing(t, rows[..i], Candidates(t, room, BeforeId(cursor)));
  }
}
