/** The message table of internal/message/store.go: append, recall mark, cursor paging. */
module MessageLog {
  import opened Domain

  datatype MessageTable = MessageTable(rows: map<MsgId, Message>, nextId: MsgId)

  function Min(a: nat, b: nat): nat {
    if a < b then a else b
  }

  // ----- Statements -----

  // AUTO_INCREMENT hands out an id above every earlier one; the caller's id is ignored.
  function InsertMessage(m: MessageTable, msg: Message, now: Time): MessageTable {
    MessageTable(m.rows[m.nextId := msg.(id := m.nextId, created := now)], m.nextId + 1)
  }

  function MarkDeleted(m: MessageTable, id: MsgId): MessageTable {
    if id in m.rows then m.(rows := m.rows[id := m.rows[id].(deleted := true)]) else m
  }

  // Ids taken by inserts that were rolled back are never handed out again.
  function SkipMessageIds(m: MessageTable, n: nat): MessageTable {
    m.(nextId := m.nextId + n)
  }

  ghost predicate StrictlyDown(s: seq<MsgId>) {
    forall i, j :: 0 <= i < j < |s| ==> s[i] > s[j]
  }

  // ORDER BY id DESC over a set of ids: the one list that is descending and has just
  // these elements (DescendingUnique).
  ghost predicate IsDescending(s: set<MsgId>, r: seq<MsgId>) {
    && StrictlyDown(r)
    && |r| == |s|
    && forall x :: x in r <==> x in s
  }

  ghost function Descending(s: set<MsgId>): (r: seq<MsgId>)
    ensures IsDescending(s, r)
  {
    DescendingExists(s);
    var r :| IsDescending(s, r);
    r
  }

  lemma {:induction false} DescendingExists(s: set<MsgId>)
    ensures exists r :: IsDescending(s, r)
  {
    if s == {} {
      assert IsDescending(s, []);
    } else {
      MaxExists(s);
      var m :| IsMax(s, m);
      DescendingExists(s - {m});
      var rest :| IsDescending(s - {m}, rest);
      Prepend(m, rest);
      assert IsDescending(s, [m] + rest);
    }
  }

  lemma Prepend(m: MsgId, rest: seq<MsgId>)
    ensures forall x :: x in [m] + rest <==> x == m || x in rest
    ensures StrictlyDown(rest) && (forall x :: x in rest ==> x < m) ==> StrictlyDown([m] + rest)
  {
    assert forall j :: 0 <= j < |rest| ==> rest[j] in rest;
  }

  predicate IsMax(s: set<MsgId>, m: MsgId) {
    m in s && forall x | x in s :: x <= m
  }

  lemma {:induction false} MaxExists(s: set<MsgId>)
    requires s != {}
    ensures exists m :: IsMax(s, m)
  {
    var a :| a in s;
    var rest := s - {a};
    assert forall x :: x in s <==> x == a || x in rest;
    if rest == {} {
      assert IsMax(s, a);
    } else {
      MaxExists(rest);
      var m :| IsMax(rest, m);
      assert IsMax(s, if a <= m then m else a);
    }
  }

  // WHERE room_id = ? [AND id < ?]; a zero cursor means no bound.
  function Matching(m: MessageTable, room: RoomId, before: MsgId): set<MsgId> {
    set id | id in m.rows && m.rows[id].room == room && (before == 0 || id < before)
  }

  ghost function CursorIds(m: MessageTable, room: RoomId, before: MsgId, limit: nat): (ids: seq<MsgId>)
    ensures forall id :: id in ids ==> id in m.rows && m.rows[id].room == room
  {
    var all := Descending(Matching(m, room, before));
    var ids := all[..Min(limit, |all|)];
    assert forall id :: id in ids ==> id in all;
    ids
  }

  ghost function PageOf(m: MessageTable, room: RoomId, before: MsgId, limit: nat): seq<Message> {
    RowsOf(m, CursorIds(m, room, before, limit))
  }

  ghost function RowsOf(m: MessageTable, ids: seq<MsgId>): seq<Message>
    requires forall id :: id in ids ==> id in m.rows
  {
    seq(|ids|, i requires 0 <= i < |ids| => m.rows[ids[i]])
  }

  // The rows read and those still to do make up the listing.
  ghost predicate Reading(m: MessageTable, all: seq<MsgId>, read: seq<MsgId>, todo: set<MsgId>) {
    && read + Descending(todo) == all
    && (forall id :: id in read ==> id in m.rows) && (forall id :: id in todo ==> id in m.rows)
  }

  lemma ReadTop(m: MessageTable, all: seq<MsgId>, read: seq<MsgId>, todo: set<MsgId>, top: MsgId)
    requires Reading(m, all, read, todo) && IsMax(todo, top)
    ensures Reading(m, all, read + [top], todo - {top})
    ensures RowsOf(m, read + [top]) == RowsOf(m, read) + [m.rows[top]]
  {
    DescendingPops(todo, top);
    assert (read + [top]) + Descending(todo - {top}) == read + Descending(todo);
  }

  lemma ReadSoFar(m: MessageTable, all: seq<MsgId>, read: seq<MsgId>, todo: set<MsgId>, limit: nat)
    requires Reading(m, all, read, todo) && |read| <= limit && (todo == {} || |read| == limit)
    ensures read == all[..Min(limit, |all|)]
  {}

  // The newest message of a room, 0 when it has none.
  ghost function Newest(m: MessageTable, room: RoomId): (id: MsgId)
    ensures id == 0 || (id in m.rows && m.rows[id].room == room)
  {
    var ids := Descending(Matching(m, room, 0));
    if ids == [] then 0
    else
      assert ids[0] in ids;
      ids[0]
  }

  ghost predicate LogOk(m: MessageTable) {
    && 1 <= m.nextId
    && forall id :: id in m.rows ==> 1 <= id < m.nextId && m.rows[id].id == id
  }

  // ----- What a page must be -----

  ghost predicate InWindow(m: MessageTable, room: RoomId, before: MsgId, id: MsgId) {
    id in m.rows && m.rows[id].room == room && (before == 0 || id < before)
  }

  // Rows of the room below the cursor, as they are stored, newest first, at most n; and one
  // that is missing is older than all of a full page.
  ghost predicate IsPage(m: MessageTable, room: RoomId, before: MsgId, n: nat, page: seq<Message>) {
    && |page| <= n
    && (forall i :: 0 <= i < |page| ==> InWindow(m, room, before, page[i].id) && page[i] == m.rows[page[i].id])
    && (forall i, j :: 0 <= i < j < |page| ==> page[i].id > page[j].id)
    && (forall id: MsgId :: InWindow(m, room, before, id) ==>
          || (exists i :: 0 <= i < |page| && page[i].id == id)
          || (|page| == n && forall i :: 0 <= i < |page| ==> id < page[i].id))
  }

  // An entry of one page is on the other or lies below all of it.
  lemma OnOtherPage(m: MessageTable, room: RoomId, before: MsgId, n: nat, p: seq<Message>, q: seq<Message>, j: nat)
    requires IsPage(m, room, before, n, p) && IsPage(m, room, before, n, q) && j < |q|
    ensures || (exists i :: 0 <= i < |p| && p[i] == q[j])
            || (|p| == n && forall i :: 0 <= i < |p| ==> q[j].id < p[i].id)
  {
    assert InWindow(m, room, before, q[j].id);
  }

  ghost predicate SameUpTo(p: seq<Message>, q: seq<Message>, k: nat)
    requires k <= |p| && k <= |q|
  {
    forall i :: 0 <= i < k ==> p[i] == q[i]
  }

  lemma EarlierIsNewer(m: MessageTable, room: RoomId, before: MsgId, n: nat, p: seq<Message>, q: seq<Message>, j: nat,
                       i: nat)
    requires IsPage(m, room, before, n, q) && j < |p| && j < |q| && SameUpTo(p, q, j) && i < |p|
    ensures i < j ==> p[i].id > q[j].id
  {}

  lemma NotNewer(m: MessageTable, room: RoomId, before: MsgId, n: nat, p: seq<Message>, q: seq<Message>, j: nat)
    requires IsPage(m, room, before, n, p) && IsPage(m, room, before, n, q) && j < |p| && j < |q|
    requires SameUpTo(p, q, j)
    ensures q[j].id <= p[j].id
  {
    OnOtherPage(m, room, before, n, p, q, j);
    if q[j].id >= p[j].id {
      var i :| 0 <= i < |p| && p[i] == q[j];
      EarlierIsNewer(m, room, before, n, p, q, j, i);
    }
  }

  lemma SameEntry(m: MessageTable, room: RoomId, before: MsgId, n: nat, p: seq<Message>, q: seq<Message>, j: nat)
    requires IsPage(m, room, before, n, p) && IsPage(m, room, before, n, q) && j < |p| && j < |q|
    requires SameUpTo(p, q, j)
    ensures SameUpTo(p, q, j + 1)
  {
    NotNewer(m, room, before, n, p, q, j);
    NotNewer(m, room, before, n, q, p, j);
    assert p[j] == m.rows[p[j].id] && q[j] == m.rows[q[j].id];
  }

  lemma {:induction false} OnePageUpTo(m: MessageTable, room: RoomId, before: MsgId, n: nat, p: seq<Message>,
                                       q: seq<Message>, k: nat)
    requires IsPage(m, room, before, n, p) && IsPage(m, room, before, n, q) && k <= |p| && k <= |q|
    ensures SameUpTo(p, q, k)
  {
    if k > 0 {
      var j := k - 1;
      OnePageUpTo(m, room, before, n, p, q, j);
      SameEntry(m, room, before, n, p, q, j);
    }
  }

  lemma NotLonger(m: MessageTable, room: RoomId, before: MsgId, n: nat, p: seq<Message>, q: seq<Message>)
    requires IsPage(m, room, before, n, p) && IsPage(m, room, before, n, q)
    requires forall i :: 0 <= i < |p| && i < |q| ==> p[i] == q[i]
    ensures |q| <= |p|
  {
    if |p| < |q| { OnOtherPage(m, room, before, n, p, q, |p|); }
  }

  // There is one such page ...
  lemma OnePage(m: MessageTable, room: RoomId, before: MsgId, n: nat, p: seq<Message>, q: seq<Message>)
    requires IsPage(m, room, before, n, p) && IsPage(m, room, before, n, q)
    ensures p == q
  {
    OnePageUpTo(m, room, before, n, p, q, Min(|p|, |q|));
    NotLonger(m, room, before, n, p, q);
    NotLonger(m, room, before, n, q, p);
  }

  // ... the head of the descending listing.
  lemma PageIsHead(m: MessageTable, room: RoomId, before: MsgId, n: nat, page: seq<Message>)
    requires LogOk(m)
    ensures IsPage(m, room, before, n, page) <==> page == PageOf(m, room, before, n)
  {
    var head := PageOf(m, room, before, n);
    HeadIsPage(m, room, before, n);
    if IsPage(m, room, before, n, page) { OnePage(m, room, before, n, page, head); }
  }

  lemma HeadIsPage(m: MessageTable, room: RoomId, before: MsgId, n: nat)
    requires LogOk(m)
    ensures IsPage(m, room, before, n, PageOf(m, room, before, n))
  {
    var all, ids := Descending(Matching(m, room, before)), CursorIds(m, room, before, n);
    var head := PageOf(m, room, before, n);
    forall i | 0 <= i < |head| ensures head[i].id == all[i] && InWindow(m, room, before, head[i].id) {
      assert head[i] == m.rows[ids[i]] && ids[i] in all;
    }
    forall id: MsgId | InWindow(m, room, before, id)
      ensures (exists i :: 0 <= i < |head| && head[i].id == id)
           || (|head| == n && forall i :: 0 <= i < |head| ==> id < head[i].id)
    {
      assert id in all;
      var k :| 0 <= k < |all| && all[k] == id;
      assert k < |head| ==> head[k].id == id;
    }
  }

  // ----- Growth: what any later state of the log keeps of an earlier one -----

  // Ids, senders, rooms and contents are immutable, Deleted is absorbing, and what was
  // added since carries ids that were not yet handed out.
  ghost predicate Grew(m: MessageTable, m': MessageTable) {
    && m.nextId <= m'.nextId
    && (forall id :: id in m.rows ==> id in m'.rows && SameButDeleted(m.rows[id], m'.rows[id]))
    && (forall id :: id in m'.rows && id !in m.rows ==> m.nextId <= id)
  }

  ghost predicate SameButDeleted(a: Message, b: Message) {
    && b.(deleted := a.deleted) == a
    && (a.deleted ==> b.deleted)
  }

  lemma GrewReflexive(m: MessageTable)
    ensures Grew(m, m)
  {}

  lemma GrewTransitive(a: MessageTable, b: MessageTable, c: MessageTable)
    requires Grew(a, b) && Grew(b, c)
    ensures Grew(a, c)
  {
    forall id | id in a.rows ensures id in c.rows && SameButDeleted(a.rows[id], c.rows[id]) {
      assert id in b.rows;
    }
  }

  lemma StatementsGrow(m: MessageTable, msg: Message, now: Time, id: MsgId, n: nat)
    requires LogOk(m)
    ensures LogOk(InsertMessage(m, msg, now)) && Grew(m, InsertMessage(m, msg, now))
    ensures LogOk(MarkDeleted(m, id)) && Grew(m, MarkDeleted(m, id))
    ensures LogOk(SkipMessageIds(m, n)) && Grew(m, SkipMessageIds(m, n))
  {}

  // A strictly descending list is determined by its elements.
  lemma {:induction false} DescendingUnique(a: seq<MsgId>, b: seq<MsgId>)
    requires StrictlyDown(a) && StrictlyDown(b)
    requires forall x :: x in a <==> x in b
    ensures a == b
  {
    assert |b| > 0 ==> b[0] in b;
    if a != [] {
      assert a[0] in b && b[0] in a;
      assert a == [a[0]] + a[1..] && b == [b[0]] + b[1..];
      assert a[0] == b[0];
      forall x ensures x in a[1..] <==> x in b[1..] {
        assert x in a <==> x == a[0] || x in a[1..];
        assert x in b <==> x == a[0] || x in b[1..];
      }
      DescendingUnique(a[1..], b[1..]);
    }
  }

  // Inserting makes the new row the head of its room and leaves every other room's head;
  // recalling moves no head.
  lemma NewestAfter(m: MessageTable, msg: Message, now: Time, room: RoomId, id: MsgId)
    requires LogOk(m)
    ensures Newest(InsertMessage(m, msg, now), room) == if room == msg.room then m.nextId else Newest(m, room)
    ensures Newest(MarkDeleted(m, id), room) == Newest(m, room)
  {
    var m' := InsertMessage(m, msg, now);
    if room == msg.room {
      var ids := Descending(Matching(m', room, 0));
      assert m.nextId in Matching(m', room, 0);
      assert m.nextId in ids && ids[0] in ids;
      assert ids[0] <= m.nextId;
    } else {
      assert Matching(m', room, 0) == Matching(m, room, 0);
    }
    assert Matching(MarkDeleted(m, id), room, 0) == Matching(m, room, 0);
  }

  // The newest message is what a one-entry first page shows.
  lemma NewestIsFirstPage(m: MessageTable, room: RoomId)
    requires LogOk(m)
    ensures IsPage(m, room, 0, 1, if Newest(m, room) == 0 then [] else [m.rows[Newest(m, room)]])
  {
    var all := Descending(Matching(m, room, 0));
    if all != [] {
      assert all[0] in all;
      assert CursorIds(m, room, 0, 1) == [all[0]];
      assert PageOf(m, room, 0, 1) == [m.rows[all[0]]];
    }
    HeadIsPage(m, room, 0, 1);
  }

  // ----- The cursor walk -----

  function Below(s: set<MsgId>, bound: MsgId): set<MsgId> {
    set x | x in s && x < bound
  }

  lemma TailOfDescending(d: seq<MsgId>, k: nat)
    requires StrictlyDown(d) && k < |d|
    ensures StrictlyDown(d[k + 1..])
    ensures forall x :: x in d[k + 1..] <==> x in d && x < d[k]
  {
    var tail := d[k + 1..];
    forall x | x in d && x < d[k] ensures x in tail {
      var i :| 0 <= i < |d| && d[i] == x;
      assert tail[i - k - 1] == x;
    }
    forall x | x in tail ensures x in d && x < d[k] {
      var i :| 0 <= i < |tail| && tail[i] == x;
      assert d[k + 1 + i] == x;
    }
  }

  // What lies below the k-th id of a descending list is the list's tail after k.
  lemma BelowIsTail(s: set<MsgId>, k: nat)
    requires k < |Descending(s)|
    ensures Descending(Below(s, Descending(s)[k])) == Descending(s)[k + 1..]
  {
    TailOfDescending(Descending(s), k);
    DescendingUnique(Descending(Below(s, Descending(s)[k])), Descending(s)[k + 1..]);
  }

  // Rows added after a cursor was taken lie above it: a bounded query does not see them.
  lemma MatchingStable(m: MessageTable, m': MessageTable, room: RoomId, before: MsgId)
    requires LogOk(m) && Grew(m, m') && 0 < before <= m.nextId
    ensures Matching(m', room, before) == Below(Matching(m, room, 0), before)
  {
    forall id | id in Matching(m', room, before) ensures id in Matching(m, room, 0) {
      assert id in m.rows;
      assert SameButDeleted(m.rows[id], m'.rows[id]);
    }
    forall id | id in Matching(m, room, 0) && id < before ensures id in Matching(m', room, before) {
      assert SameButDeleted(m.rows[id], m'.rows[id]);
    }
  }

  // A client walk: page k is read from the table as it stands at that moment, each page
  // starting below the last id of the one before.
  ghost predicate Walk(tables: seq<MessageTable>, room: RoomId, limit: nat, pages: seq<seq<MsgId>>) {
    && |pages| <= |tables|
    && (forall i, j :: 0 <= i < j < |tables| ==> Grew(tables[i], tables[j]))
    && (forall k :: 0 <= k < |pages| ==> PageRead(tables, room, limit, pages, k))
    && (forall k :: 0 <= k < |pages| - 1 ==> |pages[k]| == limit)   // a short page ends the walk
  }

  ghost predicate PageRead(tables: seq<MessageTable>, room: RoomId, limit: nat, pages: seq<seq<MsgId>>, k: nat)
    requires k < |pages| <= |tables|
  {
    pages[k] == CursorIds(tables[k], room, CursorBefore(pages, k), limit)
  }

  ghost function CursorBefore(pages: seq<seq<MsgId>>, k: nat): MsgId
    requires k <= |pages|
  {
    if k == 0 || |pages[k - 1]| == 0 then 0 else pages[k - 1][|pages[k - 1]| - 1]
  }

  ghost function Concat(pages: seq<seq<MsgId>>): seq<MsgId> {
    if pages == [] then [] else Concat(pages[..|pages| - 1]) + pages[|pages| - 1]
  }

  lemma ConcatStep(pages: seq<seq<MsgId>>, k: nat)
    requires k < |pages|
    ensures Concat(pages[..k + 1]) == Concat(pages[..k]) + pages[k]
  {
    assert pages[..k + 1][..k] == pages[..k];
  }

  // A page read below entry o - 1 of an earlier listing returns the entries from o on.
  lemma PageContinues(m: MessageTable, m': MessageTable, room: RoomId, limit: nat, all: seq<MsgId>, o: nat, last: MsgId)
    requires LogOk(m) && Grew(m, m') && all == Descending(Matching(m, room, 0))
    requires 0 < o <= |all| && last == all[o - 1]
    ensures CursorIds(m', room, last, limit) == SliceFrom(all, o, limit)
  {
    assert last in all && last in Matching(m, room, 0);
    MatchingStable(m, m', room, last);
    BelowIsTail(Matching(m, room, 0), o - 1);
    var rest := Descending(Matching(m', room, last));
    assert rest == all[o..];
    assert CursorIds(m', room, last, limit) == rest[..Min(limit, |rest|)];
  }

  function SliceFrom(all: seq<MsgId>, from: nat, limit: nat): seq<MsgId>
    requires from <= |all|
  {
    all[from..][..Min(limit, |all| - from)]
  }

  lemma FullSlice(all: seq<MsgId>, from: nat, limit: nat)
    requires 0 < limit && from <= |all| && |SliceFrom(all, from, limit)| == limit
    ensures from + limit <= |all|
    ensures all[..from] + SliceFrom(all, from, limit) == all[..from + limit]
    ensures SliceFrom(all, from, limit)[limit - 1] == all[from + limit - 1]
  {}

  // The pages before k make up the head of the listing, and page k continues from there.
  ghost predicate OnListing(pages: seq<seq<MsgId>>, all: seq<MsgId>, limit: nat, k: nat)
    requires k < |pages|
  {
    var read := Concat(pages[..k]);
    && |read| <= |all|
    && read == all[..|read|]
    && pages[k] == SliceFrom(all, |read|, limit)
    && (k > 0 ==> 0 < |read| && CursorBefore(pages, k) == all[|read| - 1])
  }

  lemma ReadOn(pages: seq<seq<MsgId>>, all: seq<MsgId>, limit: nat, k: nat)
    requires 0 < limit && k + 1 < |pages| && |pages[k]| == limit && OnListing(pages, all, limit, k)
    ensures var read := Concat(pages[..k + 1]);
            0 < |read| <= |all| && read == all[..|read|] && CursorBefore(pages, k + 1) == all[|read| - 1]
  {
    ConcatStep(pages, k);
    FullSlice(all, |Concat(pages[..k])|, limit);
  }

  // Whatever was sent or recalled between the pages, every page continues the listing the
  // room had when the first page was read.
  lemma {:induction false} PagesFollowListing(tables: seq<MessageTable>, room: RoomId, limit: nat,
                                              pages: seq<seq<MsgId>>, all: seq<MsgId>, k: nat)
    requires 0 < limit && Walk(tables, room, limit, pages) && k < |pages| && LogOk(tables[0])
    requires all == Descending(Matching(tables[0], room, 0))
    ensures OnListing(pages, all, limit, k)
  {
    if k > 0 {
      PagesFollowListing(tables, room, limit, pages, all, k - 1);
      assert |pages[k - 1]| == limit;
      assert PageRead(tables, room, limit, pages, k);
      NextPage(tables[0], tables[k], room, limit, pages, all, k - 1);
    } else {
      assert PageRead(tables, room, limit, pages, 0);
      FirstPage(tables[0], room, limit);
    }
  }

  lemma NextPage(m: MessageTable, m': MessageTable, room: RoomId, limit: nat, pages: seq<seq<MsgId>>,
                 all: seq<MsgId>, k: nat)
    requires k + 1 < |pages| && 0 < limit && |pages[k]| == limit && OnListing(pages, all, limit, k)
    requires LogOk(m) && Grew(m, m') && all == Descending(Matching(m, room, 0))
    requires pages[k + 1] == CursorIds(m', room, CursorBefore(pages, k + 1), limit)
    ensures OnListing(pages, all, limit, k + 1)
  {
    ReadOn(pages, all, limit, k);
    PageContinues(m, m', room, limit, all, |Concat(pages[..k + 1])|, CursorBefore(pages, k + 1));
  }

  lemma FirstPage(m: MessageTable, room: RoomId, limit: nat)
    ensures var all := Descending(Matching(m, room, 0));
            CursorIds(m, room, 0, limit) == SliceFrom(all, 0, limit)
  {
    assert Descending(Matching(m, room, 0))[0..] == Descending(Matching(m, room, 0));
  }

  // Each cursor is strictly below the one before it.
  lemma CursorsDecrease(tables: seq<MessageTable>, room: RoomId, limit: nat, pages: seq<seq<MsgId>>, k: nat)
    requires 0 < limit && Walk(tables, room, limit, pages) && 1 <= k < |pages| - 1 && LogOk(tables[0])
    ensures 0 < CursorBefore(pages, k + 1) < CursorBefore(pages, k)
  {
    var all := Descending(Matching(tables[0], room, 0));
    PagesFollowListing(tables, room, limit, pages, all, k);
    PagesFollowListing(tables, room, limit, pages, all, k + 1);
    ConcatStep(pages, k);
    ReadOn(pages, all, limit, k);
    assert all[|Concat(pages[..k + 1])| - 1] in all;
  }

  lemma {:induction false} FullPages(tables: seq<MessageTable>, room: RoomId, limit: nat, pages: seq<seq<MsgId>>,
                                     k: nat)
    requires Walk(tables, room, limit, pages) && k < |pages|
    ensures |Concat(pages[..k])| == k * limit
  {
    if k > 0 {
      FullPages(tables, room, limit, pages, k - 1);
      ConcatStep(pages, k - 1);
      assert |pages[k - 1]| == limit;
      assert k * limit == (k - 1) * limit + limit;
    }
  }

  // However long a walk goes on, its full pages fit into what the room had when it began: a
  // short page comes, and the walk ends.
  lemma WalkIsBounded(tables: seq<MessageTable>, room: RoomId, limit: nat, pages: seq<seq<MsgId>>)
    requires 0 < limit && Walk(tables, room, limit, pages) && 0 < |pages| && LogOk(tables[0])
    ensures (|pages| - 1) * limit <= |Matching(tables[0], room, 0)|
  {
    var all, k := Descending(Matching(tables[0], room, 0)), |pages| - 1;
    PagesFollowListing(tables, room, limit, pages, all, k);
    FullPages(tables, room, limit, pages, k);
  }

  // A walk read to its first short page returns exactly the messages the room had when it
  // began, newest first, in n / limit + 1 pages.
  lemma WalkIsComplete(tables: seq<MessageTable>, room: RoomId, limit: nat, pages: seq<seq<MsgId>>)
    requires 0 < limit && Walk(tables, room, limit, pages) && 0 < |pages| && LogOk(tables[0])
    requires |pages[|pages| - 1]| < limit
    ensures Concat(pages) == Descending(Matching(tables[0], room, 0))
    ensures |pages| == |Matching(tables[0], room, 0)| / limit + 1
  {
    var all := Descending(Matching(tables[0], room, 0));
    var k := |pages| - 1;
    PagesFollowListing(tables, room, limit, pages, all, k);
    ConcatStep(pages, k);
    assert pages[..k + 1] == pages;
    FullPages(tables, room, limit, pages, k);
    QuotientIs(|all|, limit, k);
  }

  // ----- The same for pages of messages, as a client gets them -----

  ghost function IdsOf(page: seq<Message>): (ids: seq<MsgId>)
    ensures |ids| == |page| && forall i :: 0 <= i < |page| ==> ids[i] == page[i].id
  {
    seq(|page|, i requires 0 <= i < |page| => page[i].id)
  }

  ghost function IdLists(pages: seq<seq<Message>>): (lists: seq<seq<MsgId>>)
    ensures |lists| == |pages| && forall k :: 0 <= k < |pages| ==> lists[k] == IdsOf(pages[k])
  {
    seq(|pages|, k requires 0 <= k < |pages| => IdsOf(pages[k]))
  }

  // The cursor a client sends for page k: the id of the last message it has.
  ghost function NextCursor(pages: seq<seq<Message>>, k: nat): MsgId
    requires k <= |pages|
  {
    if k == 0 || pages[k - 1] == [] then 0 else pages[k - 1][|pages[k - 1]| - 1].id
  }

  // Pages of n read one after the other, page k from tables[k], until one is shorter.
  ghost predicate ReadToEnd(tables: seq<MessageTable>, room: RoomId, n: nat, pages: seq<seq<Message>>) {
    && 0 < |pages| <= |tables|
    && (forall k :: 0 <= k < |pages| ==> IsPage(tables[k], room, NextCursor(pages, k), n, pages[k]))
    && (forall k :: 0 <= k < |pages| - 1 ==> |pages[k]| == n)
    && |pages[|pages| - 1]| < n
  }

  lemma PagesAreWalk(tables: seq<MessageTable>, room: RoomId, n: nat, pages: seq<seq<Message>>)
    requires 0 < n && ReadToEnd(tables, room, n, pages)
    requires forall i :: 0 <= i < |tables| ==> LogOk(tables[i])
    requires forall i, j :: 0 <= i < j < |tables| ==> Grew(tables[i], tables[j])
    ensures Walk(tables, room, n, IdLists(pages))
  {
    var lists := IdLists(pages);
    forall k | 0 <= k < |pages| ensures PageRead(tables, room, n, lists, k) {
      SameCursor(pages, k);
      IdsOfPage(tables[k], room, NextCursor(pages, k), n, pages[k]);
    }
  }

  lemma SameCursor(pages: seq<seq<Message>>, k: nat)
    requires k <= |pages|
    ensures CursorBefore(IdLists(pages), k) == NextCursor(pages, k)
  {}

  lemma IdsOfPage(m: MessageTable, room: RoomId, before: MsgId, n: nat, page: seq<Message>)
    requires LogOk(m) && IsPage(m, room, before, n, page)
    ensures IdsOf(page) == CursorIds(m, room, before, n)
  {
    var ids := CursorIds(m, room, before, n);
    PageIsHead(m, room, before, n, page);
    assert |page| == |ids|;
    forall i | 0 <= i < |ids| ensures IdsOf(page)[i] == ids[i] {
      assert ids[i] in ids;
    }
  }

  // Reading to the first short page shows exactly the messages the room had at the first
  // page, each once and newest first.
  lemma ReadIsComplete(tables: seq<MessageTable>, room: RoomId, n: nat, pages: seq<seq<Message>>)
    requires 0 < n && ReadToEnd(tables, room, n, pages)
    requires forall i :: 0 <= i < |tables| ==> LogOk(tables[i])
    requires forall i, j :: 0 <= i < j < |tables| ==> Grew(tables[i], tables[j])
    ensures StrictlyDown(Concat(IdLists(pages)))
    ensures forall id :: id in Concat(IdLists(pages)) <==> id in tables[0].rows && tables[0].rows[id].room == room
    ensures |pages| == |Concat(IdLists(pages))| / n + 1
  {
    PagesAreWalk(tables, room, n, pages);
    WalkIsComplete(tables, room, n, IdLists(pages));
  }

  lemma QuotientIs(n: nat, d: nat, q: nat)
    requires 0 < d && q * d <= n < q * d + d
    ensures n / d == q
  {
    var e := n / d;
    MulMono(e + 1, q, d);
    MulMono(q + 1, e, d);
    assert e * d <= n < (e + 1) * d;
  }

  lemma MulMono(a: nat, b: nat, d: nat)
    ensures a <= b ==> a * d <= b * d
  {
    if a <= b { assert b * d == a * d + (b - a) * d; }
  }

  // ----- internal/message/store.go -----

  class MessageStore {
    var db: MessageTable

    constructor ()
      ensures db == MessageTable(map[], 1)
    {
      db := MessageTable(map[], 1);
    }

    method Insert(msg: Message, now: Time) returns (id: MsgId)
      modifies this
      ensures id == old(db.nextId) && db == InsertMessage(old(db), msg, now)
      // Above every earlier id, so the head of its room; nothing stored changes.
      ensures old(LogOk(db)) ==> LogOk(db) && Grew(old(db), db) && Newest(db, msg.room) == id
    {
      ghost var before := db;
      if LogOk(before) {
        StatementsGrow(before, msg, now, 0, 0);
        NewestAfter(before, msg, now, msg.room, 0);
      }
      id := db.nextId;
      db := MessageTable(db.rows[id := msg.(id := id, created := now)], id + 1);
    }

    function GetByID(id: MsgId): Option<Message>
      reads this
    {
      if id in db.rows then Some(db.rows[id]) else None
    }

    method SkipIds(n: nat)
      modifies this
      ensures db == SkipMessageIds(old(db), n)
    {
      db := db.(nextId := db.nextId + n);
    }

    method SetDeleted(id: MsgId)
      modifies this
      ensures db == MarkDeleted(old(db), id)
      // Nothing but that mark, so no page gains or loses an entry.
      ensures Grew(old(db), db) && (id in db.rows ==> db.rows[id].deleted)
      ensures forall q :: q in db.rows && q != id ==> db.rows[q] == old(db).rows[q]
      ensures forall room, before :: Matching(db, room, before) == old(Matching(db, room, before))
    {
      if id in db.rows {
        db := db.(rows := db.rows[id := db.rows[id].(deleted := true)]);
      }
    }

    // The query stops after limit rows; the loop is the ORDER BY ... LIMIT of the statement.
    method ListByRoomCursor(room: RoomId, before: MsgId, limit: nat) returns (page: seq<Message>)
      requires LogOk(db)
      ensures page == PageOf(db, room, before, limit)
    {
      page := [];
      var todo := Matching(db, room, before);
      ghost var all, read := Descending(todo), [];
      while todo != {} && |page| < limit
        invariant |page| == |read| <= limit
        invariant Reading(db, all, read, todo) && page == RowsOf(db, read)
        decreases todo
      {
        MaxExists(todo);
        var top :| top in todo && IsMax(todo, top);
        ReadTop(db, all, read, todo, top);
        page, read, todo := page + [db.rows[top]], read + [top], todo - {top};
      }
      ReadSoFar(db, all, read, todo, limit);
    }
  }

  lemma DescendingPops(s: set<MsgId>, top: MsgId)
    requires IsMax(s, top)
    ensures Descending(s) == [top] + Descending(s - {top})
  {
    var rest := Descending(s - {top});
    Prepend(top, rest);
    DescendingUnique(Descending(s), [top] + rest);
  }
}
