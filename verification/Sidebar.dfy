/** A user's room list: ListRoomsForUser of internal/room/store.go. */
module Sidebar {
  import opened Domain
  import opened Tables
  import opened MessageLog
  import opened Chats

  datatype Summary = Summary(
    room: RoomId, kind: RoomKind, name: string, peer: Uid, active: Time,
    lastMessage: Option<string>, lastAt: Option<Time>, unread: nat)

  // LEFT JOIN message lm ON lm.id = r.last_msg_id.
  function LastMessage(m: MessageTable, rm: Room): (Option<string>, Option<Time>) {
    if rm.lastMsgId in m.rows
    then (Some(m.rows[rm.lastMsgId].content), Some(m.rows[rm.lastMsgId].created))
    else (None, None)
  }

  function GroupSummary(t: Tables, m: MessageTable, r: RoomId, uid: Uid): Summary
    requires r in t.rooms && r in t.groups
  {
    var last := LastMessage(m, t.rooms[r]);
    Summary(r, t.rooms[r].kind, t.groups[r].name, 0, t.rooms[r].activeTime, last.0, last.1, Unread(t.contacts, uid, r))
  }

  function FriendSummary(t: Tables, m: MessageTable, r: RoomId, uid: Uid): Summary
    requires r in t.rooms && r in t.friends
  {
    var last := LastMessage(m, t.rooms[r]);
    var f := t.friends[r];
    var peer := if f.uid1 == uid then f.uid2 else f.uid1;
    Summary(r, t.rooms[r].kind, "", peer, t.rooms[r].activeTime, last.0, last.1, Unread(t.contacts, uid, r))
  }

  // The two halves of the UNION ALL: inner joins over the caller's rows.
  function GroupRows(t: Tables, m: MessageTable, uid: Uid): set<Summary> {
    set k | k in t.members && k.1 == uid && k.0 in t.rooms && k.0 in t.groups :: GroupSummary(t, m, k.0, uid)
  }

  function FriendRows(t: Tables, m: MessageTable, uid: Uid): set<Summary> {
    set r | r in t.friends && r in t.rooms && IsFriendOf(t.friends[r], uid) :: FriendSummary(t, m, r, uid)
  }

  ghost predicate ByActivity(rows: seq<Summary>) {
    forall i, j :: 0 <= i < j < |rows| ==> rows[i].active >= rows[j].active
  }

  // UNION ALL keeps repetitions; ties in active_time come in any order.
  ghost predicate IsAnswer(rows: seq<Summary>, t: Tables, m: MessageTable, uid: Uid) {
    && multiset(rows) == multiset(GroupRows(t, m, uid)) + multiset(FriendRows(t, m, uid))
    && ByActivity(rows)
  }

  predicate IsLatest(rest: multiset<Summary>, x: Summary) {
    x in rest && forall y | y in rest :: y.active <= x.active
  }

  lemma {:induction false} LatestExists(rest: multiset<Summary>)
    requires rest != multiset{}
    ensures exists x :: IsLatest(rest, x)
    decreases |rest|
  {
    var a :| a in rest;
    var less := rest - multiset{a};
    assert forall y :: y in rest ==> y == a || y in less;
    if less == multiset{} {
      assert IsLatest(rest, a);
    } else {
      LatestExists(less);
      var b :| IsLatest(less, b);
      assert IsLatest(rest, if a.active <= b.active then b else a);
    }
  }

  // Every row already listed is at least as recent as every row still to come.
  ghost predicate AllLater(rows: seq<Summary>, rest: multiset<Summary>) {
    forall i, y :: 0 <= i < |rows| && y in rest ==> y.active <= rows[i].active
  }

  lemma TakeLatest(rows: seq<Summary>, rest: multiset<Summary>, x: Summary)
    requires ByActivity(rows) && AllLater(rows, rest) && IsLatest(rest, x)
    ensures ByActivity(rows + [x]) && AllLater(rows + [x], rest - multiset{x})
    ensures multiset(rows + [x]) + (rest - multiset{x}) == multiset(rows) + rest
  {
    forall y | y in rest - multiset{x} ensures y in rest {}
  }

  // The statement's ORDER BY active_time DESC over its two halves.
  method ListRoomsForUser(t: Tables, m: MessageTable, uid: Uid) returns (rows: seq<Summary>)
    ensures IsAnswer(rows, t, m, uid)
  {
    rows := [];
    var rest := multiset(GroupRows(t, m, uid)) + multiset(FriendRows(t, m, uid));
    ghost var all := rest;
    while rest != multiset{}
      invariant multiset(rows) + rest == all
      invariant ByActivity(rows) && AllLater(rows, rest)
      decreases |rest|
    {
      LatestExists(rest);
      var x :| x in rest && IsLatest(rest, x);
      TakeLatest(rows, rest, x);
      rows, rest := rows + [x], rest - multiset{x};
    }
  }

  // What the row for room r must say.
  ghost predicate Describes(row: Summary, c: Chat, uid: Uid) {
    && row.room in c.t.rooms
    && row.kind == c.t.rooms[row.room].kind
    && (row.kind.GroupRoom? ==> row.room in c.t.groups && row.name == c.t.groups[row.room].name && row.peer == 0)
    && (row.kind.FriendRoom? ==>
          && row.room in c.t.friends && row.name == ""
          && {row.peer, uid} == Participants(c.t, row.room) && row.peer != uid)
    && row.unread == (if (uid, row.room) in c.t.contacts then c.t.contacts[(uid, row.room)].unread else 0)
    && row.active == c.t.rooms[row.room].activeTime
    && (row.lastMessage, row.lastAt) == NewestShown(c.m, row.room)
  }

  // Content and time of the message that heads the room's history.
  ghost function NewestShown(m: MessageTable, r: RoomId): (Option<string>, Option<Time>) {
    var id := Newest(m, r);
    if id in m.rows then (Some(m.rows[id].content), Some(m.rows[id].created)) else (None, None)
  }

  // Whatever order the database picks among ties, the list has one row for each room in
  // whose recipients the user is, and no other; each row shows the right peer, unread count
  // and newest message; rows come by non-increasing activity.
  lemma SidebarMatchesRecipients(c: Chat, uid: Uid, rows: seq<Summary>)
    requires ChatOk(c) && IsAnswer(rows, c.t, c.m, uid)
    ensures forall r :: r in c.t.rooms ==> (uid in Participants(c.t, r)
              <==> exists i :: 0 <= i < |rows| && rows[i].room == r)
    ensures forall i, j :: 0 <= i < j < |rows| ==> rows[i].room != rows[j].room && rows[i].active >= rows[j].active
    ensures forall i :: 0 <= i < |rows| ==> Describes(rows[i], c, uid)
  {
    var gs, fs := GroupRows(c.t, c.m, uid), FriendRows(c.t, c.m, uid);
    forall i | 0 <= i < |rows| ensures Describes(rows[i], c, uid) && uid in Participants(c.t, rows[i].room) {
      assert rows[i] in multiset(rows);
      RowDescribes(c, uid, rows[i]);
    }
    forall r | r in c.t.rooms && uid in Participants(c.t, r) ensures exists i :: 0 <= i < |rows| && rows[i].room == r {
      RowExists(c, uid, r);
      var row: Summary :| row in gs + fs && row.room == r;
      assert row in multiset(rows);
    }
    forall i, j | 0 <= i < j < |rows| ensures rows[i].room != rows[j].room {
      if rows[i].room == rows[j].room {
        assert rows[i] in multiset(rows) && rows[j] in multiset(rows);
        RowUnique(c, uid, rows[i], rows[j]);
        TwiceInMultiset(rows, i, j);
      }
    }
  }

  lemma RowDescribes(c: Chat, uid: Uid, row: Summary)
    requires ChatOk(c) && row in GroupRows(c.t, c.m, uid) + FriendRows(c.t, c.m, uid)
    ensures Describes(row, c, uid) && uid in Participants(c.t, row.room)
  {
    if row in GroupRows(c.t, c.m, uid) {
      var k :| k in c.t.members && k.1 == uid && k.0 in c.t.rooms && k.0 in c.t.groups
          && row == GroupSummary(c.t, c.m, k.0, uid);
      assert (row.room, uid) in c.t.members;
    }
  }

  lemma RowExists(c: Chat, uid: Uid, r: RoomId)
    requires ChatOk(c) && r in c.t.rooms && uid in Participants(c.t, r)
    ensures exists row :: row in GroupRows(c.t, c.m, uid) + FriendRows(c.t, c.m, uid) && row.room == r
  {
    if c.t.rooms[r].kind.GroupRoom? {
      assert (r, uid) in c.t.members;
      assert GroupSummary(c.t, c.m, r, uid) in GroupRows(c.t, c.m, uid);
    } else {
      assert FriendSummary(c.t, c.m, r, uid) in FriendRows(c.t, c.m, uid);
    }
  }

  lemma RowUnique(c: Chat, uid: Uid, a: Summary, b: Summary)
    requires ChatOk(c) && a.room == b.room
    requires a in GroupRows(c.t, c.m, uid) + FriendRows(c.t, c.m, uid)
    requires b in GroupRows(c.t, c.m, uid) + FriendRows(c.t, c.m, uid)
    ensures a == b && (multiset(GroupRows(c.t, c.m, uid)) + multiset(FriendRows(c.t, c.m, uid)))[a] == 1
  {
    RowDescribes(c, uid, a);
    RowDescribes(c, uid, b);
  }

  lemma TwiceInMultiset(rows: seq<Summary>, i: nat, j: nat)
    requires i < j < |rows| && rows[i] == rows[j]
    ensures multiset(rows)[rows[i]] >= 2
  {
    assert rows == rows[..j] + [rows[j]] + rows[j + 1..];
    assert rows[i] == rows[..j][i];
    assert rows[i] in multiset(rows[..j]);
  }
}
