/** Whole runs: what the state after any sequence of requests says about its history. */
module History {
  import opened Domain
  import opened Tables
  import opened MessageLog
  import opened Hubs
  import opened Chats
  import RoomStores

  // What one request left behind for others to notice.
  datatype Event =
    | Posted(msg: Message, hot: bool, to: set<Uid>)
    | Recalled(msg: Message, hot: bool, to: set<Uid>)
    | Called(room: RoomId, from: Uid, mode: string, to: set<Uid>)
    | ReadBy(uid: Uid, room: RoomId)
    | Opened(uid: Uid, conn: Conn)
    | Closed(uid: Uid, conn: Conn)
    | Silent

  ghost function EventOf(c: Chat, op: Op): Event {
    if Reply(c, op) != Ok then Silent else
    match op
    case Send(uid, req, at) =>
      Posted(NewMessage(c, uid, req, at).(created := at.stamp), c.t.rooms[req.room].hot, Participants(c.t, req.room))
    case Recall(uid, id, at) =>
      var msg := c.m.rows[id].(deleted := true);
      if msg.room in c.t.rooms then Recalled(msg, c.t.rooms[msg.room].hot, Participants(c.t, msg.room)) else Silent
    case Invite(uid, room, mode) => Called(room, uid, CallMode(mode), Callees(c.t, room, uid))
    case MarkRead(uid, room, now) => ReadBy(uid, room)
    case Connect(uid, conn) => Opened(uid, conn)
    case Disconnect(uid, conn) => Closed(uid, conn)
    case _ => Silent
  }

  ghost function HistoryOf(c: Chat, ops: seq<Op>): (h: seq<Event>)
    ensures |h| == |ops|
  {
    if ops == [] then []
    else HistoryOf(c, ops[..|ops| - 1]) + [EventOf(Run(c, ops[..|ops| - 1]), ops[|ops| - 1])]
  }

  // ----- Unread counters -----

  // A message u should still see as unread in r, until something clears the counter.
  ghost predicate Notifies(e: Event, u: Uid, r: RoomId) {
    e.Posted? && !e.hot && e.msg.room == r && e.msg.from != u && u in e.to
  }

  // u opened r, or wrote in it.
  ghost predicate Clears(e: Event, u: Uid, r: RoomId) {
    || (e.ReadBy? && e.uid == u && e.room == r)
    || (e.Posted? && !e.hot && e.msg.room == r && e.msg.from == u)
  }

  // The position just after the last clearing event, 0 when there is none.
  ghost function SinceCleared(h: seq<Event>, u: Uid, r: RoomId): (k: nat)
    ensures k <= |h|
    ensures k > 0 ==> Clears(h[k - 1], u, r)
    ensures forall i :: k <= i < |h| ==> !Clears(h[i], u, r)
  {
    if h == [] then 0
    else if Clears(h[|h| - 1], u, r) then |h|
    else SinceCleared(h[..|h| - 1], u, r)
  }

  ghost function NotifiedFrom(h: seq<Event>, k: nat, u: Uid, r: RoomId): set<nat> {
    set i | k <= i < |h| && Notifies(h[i], u, r)
  }

  lemma UnreadStep(c: Chat, op: Op, u: Uid, r: RoomId)
    ensures Unread(Step(c, op).t.contacts, u, r)
         == if Clears(EventOf(c, op), u, r) then 0
            else Unread(c.t.contacts, u, r) + if Notifies(EventOf(c, op), u, r) then 1 else 0
  {
    if op.Send? && Reply(c, op) == Ok {
      SendUnread(c.t, op.req.room, op.uid, c.m.nextId, op.at, u, r);
    }
  }

  lemma SendUnread(t: Tables, room: RoomId, sender: Uid, id: MsgId, at: SendTimes, u: Uid, r: RoomId)
    requires room in t.rooms
    ensures Unread(Track(t, room, sender, id, at).contacts, u, r)
         == if t.rooms[room].hot || room != r then Unread(t.contacts, u, r)
            else if u == sender then 0
            else Unread(t.contacts, u, r) + if u in Participants(t, room) then 1 else 0
  {
    if !t.rooms[room].hot {
      var others := Participants(t, room) - {sender};
      var bumped := BumpSet(t.contacts, room, others, at.bump);
      assert Unread(bumped, u, r) == Unread(t.contacts, u, r) + if room == r && u in others then 1 else 0;
    }
  }

  // After any run, u's unread count in r is the number of messages others posted to r, while
  // u was among its participants, since u last read it or wrote in it.
  lemma {:induction false} UnreadIsHistory(c: Chat, ops: seq<Op>, u: Uid, r: RoomId)
    ensures var h := HistoryOf(c, ops);
            var since := SinceCleared(h, u, r);
            Unread(Run(c, ops).t.contacts, u, r)
            == (if since == 0 then Unread(c.t.contacts, u, r) else 0) + |NotifiedFrom(h, since, u, r)|
  {
    var h := HistoryOf(c, ops);
    if ops == [] {
      assert NotifiedFrom(h, 0, u, r) == {};
    } else {
      var n := |ops| - 1;
      var before, op := Run(c, ops[..n]), ops[n];
      UnreadIsHistory(c, ops[..n], u, r);
      UnreadStep(before, op, u, r);
      assert h[..n] == HistoryOf(c, ops[..n]) && h[n] == EventOf(before, op);
      OneMoreEvent(h, n, u, r);
    }
  }

  lemma OneMoreEvent(h: seq<Event>, n: nat, u: Uid, r: RoomId)
    requires |h| == n + 1
    ensures var k, k' := SinceCleared(h[..n], u, r), SinceCleared(h, u, r);
            if Clears(h[n], u, r) then k' == n + 1 && |NotifiedFrom(h, k', u, r)| == 0
            else k' == k && |NotifiedFrom(h, k', u, r)|
                         == |NotifiedFrom(h[..n], k, u, r)| + if Notifies(h[n], u, r) then 1 else 0
  {
    var k := SinceCleared(h[..n], u, r);
    var was := NotifiedFrom(h[..n], k, u, r);
    assert NotifiedFrom(h, n + 1, u, r) == {};
    assert NotifiedFrom(h, k, u, r) == if Notifies(h[n], u, r) then was + {n} else was;
  }

  // ----- Deliveries -----

  // Whether u holds connection k open after h, from the openings and closings alone.
  ghost predicate Holds(h: seq<Event>, start: set<(Uid, Conn)>, u: Uid, k: Conn) {
    if h == [] then (u, k) in start
    else
      var e := h[|h| - 1];
      if e == Opened(u, k) then true
      else if e == Closed(u, k) then false
      else Holds(h[..|h| - 1], start, u, k)
  }

  // The payload an event puts on the wire, if any.
  ghost function Carried(e: Event): Option<Payload> {
    match e
    case Posted(msg, hot, to) => Some(ChatMessage(msg))
    case Recalled(msg, hot, to) => Some(ChatMessage(msg))
    case Called(room, from, mode, to) => Some(CallInvite(room, from, mode))
    case _ => None
  }

  ghost predicate IsFor(e: Event, u: Uid)
    requires Carried(e).Some?
  {
    match e
    case Called(room, from, mode, to) => u in to
    case Posted(msg, hot, to) => hot || u in to
    case Recalled(msg, hot, to) => hot || u in to
  }

  // Event e, coming right after h, is meant for whoever holds connection k then.
  ghost predicate AddressedTo(h: seq<Event>, start: set<(Uid, Conn)>, e: Event, k: Conn) {
    Carried(e).Some? && exists u :: Holds(h, start, u, k) && IsFor(e, u)
  }

  // The events addressed to k, in order, each once.
  ghost function Inbox(h: seq<Event>, start: set<(Uid, Conn)>, k: Conn): seq<Payload> {
    if h == [] then []
    else
      var e, before := h[|h| - 1], h[..|h| - 1];
      Inbox(before, start, k) + if AddressedTo(before, start, e, k) then [Carried(e).value] else []
  }

  ghost function WireOf(c: Chat, k: Conn): seq<Payload> {
    if k in c.wire then c.wire[k] else []
  }

  lemma OnlineStep(c: Chat, op: Op, u: Uid, k: Conn)
    ensures var e := EventOf(c, op);
            (u, k) in Step(c, op).online
            <==> e == Opened(u, k) || (e != Closed(u, k) && (u, k) in c.online)
  {}

  lemma {:induction false} OnlineIsHistory(c: Chat, ops: seq<Op>, u: Uid, k: Conn)
    ensures (u, k) in Run(c, ops).online <==> Holds(HistoryOf(c, ops), c.online, u, k)
  {
    if ops != [] {
      var n := |ops| - 1;
      var h := HistoryOf(c, ops);
      OnlineIsHistory(c, ops[..n], u, k);
      OnlineStep(Run(c, ops[..n]), ops[n], u, k);
      assert h[..n] == HistoryOf(c, ops[..n]) && h[n] == EventOf(Run(c, ops[..n]), ops[n]);
    }
  }

  lemma WireStep(c: Chat, op: Op, k: Conn)
    requires ChatOk(c)
    ensures var e := EventOf(c, op);
            WireOf(Step(c, op), k)
            == WireOf(c, k) + if Carried(e).Some? && exists u :: (u, k) in c.online && IsFor(e, u)
                then [Carried(e).value] else []
  {
    var e := EventOf(c, op);
    if Carried(e).Some? {
      var hot := IsForAll(e);
      CarriedOnce(c, op);
      StampedOnce(c, Step(c, op), hot, e.to, Carried(e).value, k);
      forall u: Uid ensures IsFor(e, u) <==> hot || u in e.to {}
    } else {
      NothingWritten(c, op, k);
    }
  }

  // A payload for a hot room is for everyone online.
  ghost predicate IsForAll(e: Event) {
    (e.Posted? || e.Recalled?) && e.hot
  }

  lemma CarriedOnce(c: Chat, op: Op)
    requires ChatOk(c) && Carried(EventOf(c, op)).Some?
    ensures var e := EventOf(c, op);
            Step(c, op).wire == Stamp(c.wire, Reached(c.online, IsForAll(e), e.to), Carried(e).value)
  {}

  lemma NothingWritten(c: Chat, op: Op, k: Conn)
    requires Carried(EventOf(c, op)).None? && (op.Recall? ==> ChatOk(c))
    ensures WireOf(Step(c, op), k) == WireOf(c, k)
  {}

  lemma StampedOnce(c: Chat, c': Chat, hot: bool, to: set<Uid>, payload: Payload, k: Conn)
    requires ChatOk(c) && c'.wire == Stamp(c.wire, Reached(c.online, hot, to), payload)
    ensures WireOf(c', k) == WireOf(c, k) + if exists u :: (u, k) in c.online && (hot || u in to) then [payload] else []
  {
    ReachedIff(c.online, hot, to, k);
    if k in Reached(c.online, hot, to) { assert k in c.wire; }
  }

  lemma ReachedIff(online: set<(Uid, Conn)>, hot: bool, to: set<Uid>, k: Conn)
    ensures k in Reached(online, hot, to) <==> exists u :: (u, k) in online && (hot || u in to)
  {
    if k in Reached(online, hot, to) {
      var p :| p in online && (hot || p.0 in to) && p.1 == k;
      assert (p.0, k) in online;
    }
  }

  // After any run, what was written to a connection is exactly the messages, recalls and
  // call invitations addressed to its holder while it was open, in order, each once.
  lemma WireIsHistory(c: Chat, ops: seq<Op>, k: Conn)
    requires ChatOk(c) && RunAdmissible(c, ops)
    ensures WireOf(Run(c, ops), k) == WireOf(c, k) + Inbox(HistoryOf(c, ops), c.online, k)
  {
    WireUpTo(c, ops, |ops|, k);
    assert ops[..|ops|] == ops;
  }

  lemma {:induction false} WireUpTo(c: Chat, ops: seq<Op>, n: nat, k: Conn)
    requires ChatOk(c) && RunAdmissible(c, ops) && n <= |ops|
    ensures WireOf(Run(c, ops[..n]), k) == WireOf(c, k) + Inbox(HistoryOf(c, ops[..n]), c.online, k)
  {
    if n > 0 {
      var j := n - 1;
      WireUpTo(c, ops, j, k);
      WireAdds(c, ops, j, k);
      InboxAdds(c, ops, j, k);
      Associate(WireOf(c, k), Inbox(HistoryOf(c, ops[..j]), c.online, k), Added(c, ops, j, k));
    }
  }

  lemma Associate(a: seq<Payload>, b: seq<Payload>, d: seq<Payload>)
    ensures (a + b) + d == a + (b + d)
  {}

  // What request j adds to connection k.
  ghost function Added(c: Chat, ops: seq<Op>, j: nat, k: Conn): seq<Payload>
    requires j < |ops|
  {
    var e := EventOf(Run(c, ops[..j]), ops[j]);
    if AddressedTo(HistoryOf(c, ops[..j]), c.online, e, k) then [Carried(e).value] else []
  }

  lemma WireAdds(c: Chat, ops: seq<Op>, j: nat, k: Conn)
    requires ChatOk(c) && RunAdmissible(c, ops) && j < |ops|
    ensures WireOf(Run(c, ops[..j + 1]), k) == WireOf(Run(c, ops[..j]), k) + Added(c, ops, j, k)
  {
    PrefixAdmissible(c, ops, j);
    RunKeepsOk(c, ops[..j]);
    RunNext(c, ops, j);
    WireNext(c, Run(c, ops[..j]), ops[..j], ops[j], k);
  }

  lemma InboxAdds(c: Chat, ops: seq<Op>, j: nat, k: Conn)
    requires j < |ops|
    ensures Inbox(HistoryOf(c, ops[..j + 1]), c.online, k)
         == Inbox(HistoryOf(c, ops[..j]), c.online, k) + Added(c, ops, j, k)
  {
    HistoryNext(c, ops, j);
    InboxNext(HistoryOf(c, ops[..j]), c.online, EventOf(Run(c, ops[..j]), ops[j]), k);
  }

  lemma HistoryNext(c: Chat, ops: seq<Op>, j: nat)
    requires j < |ops|
    ensures HistoryOf(c, ops[..j + 1]) == HistoryOf(c, ops[..j]) + [EventOf(Run(c, ops[..j]), ops[j])]
  {
    assert ops[..j + 1][..j] == ops[..j];
  }

  lemma WireNext(c: Chat, mid: Chat, before: seq<Op>, op: Op, k: Conn)
    requires ChatOk(mid) && mid == Run(c, before)
    ensures WireOf(Step(mid, op), k)
         == WireOf(mid, k)
            + if AddressedTo(HistoryOf(c, before), c.online, EventOf(mid, op), k)
                then [Carried(EventOf(mid, op)).value] else []
  {
    WireStep(mid, op, k);
    forall u: Uid ensures (u, k) in mid.online <==> Holds(HistoryOf(c, before), c.online, u, k) {
      OnlineIsHistory(c, before, u, k);
    }
  }

  lemma InboxNext(h: seq<Event>, start: set<(Uid, Conn)>, e: Event, k: Conn)
    ensures Inbox(h + [e], start, k)
         == Inbox(h, start, k) + if AddressedTo(h, start, e, k) then [Carried(e).value] else []
  {
    assert (h + [e])[..|h|] == h;
  }

  // ----- The message log -----

  lemma StepGrows(c: Chat, op: Op)
    requires LogOk(c.m)
    ensures LogOk(Step(c, op).m) && Grew(c.m, Step(c, op).m)
  {
    if Reply(c, op) == Ok {
      if op.Send? { StatementsGrow(c.m, NewMessage(c, op.uid, op.req, op.at), op.at.insert, 0, 0); }
      if op.SkipIds? { StatementsGrow(c.m, Message(0, 0, 0, "", 0, 0, false, None, 0), 0, 0, op.messages); }
      if op.Recall? { StatementsGrow(c.m, c.m.rows[op.msg], 0, op.msg, 0); }
    }
  }

  // Ids, senders, rooms and contents never change, and a recalled message stays recalled.
  lemma {:induction false} RunGrows(c: Chat, ops: seq<Op>, i: nat, j: nat)
    requires LogOk(c.m) && i <= j <= |ops|
    ensures LogOk(Run(c, ops[..i]).m) && Grew(Run(c, ops[..i]).m, Run(c, ops[..j]).m)
    decreases j
  {
    if j > 0 {
      var k := j - 1;
      RunGrows(c, ops, k, k);
      NextGrows(c, ops, k);
      if i == j {
        GrewReflexive(Run(c, ops[..j]).m);
      } else {
        RunGrows(c, ops, i, k);
        GrewTransitive(Run(c, ops[..i]).m, Run(c, ops[..k]).m, Run(c, ops[..k + 1]).m);
      }
    } else {
      GrewReflexive(Run(c, ops[..0]).m);
    }
  }

  lemma NextGrows(c: Chat, ops: seq<Op>, k: nat)
    requires k < |ops| && LogOk(Run(c, ops[..k]).m)
    ensures LogOk(Run(c, ops[..k + 1]).m) && Grew(Run(c, ops[..k]).m, Run(c, ops[..k + 1]).m)
  {
    RunNext(c, ops, k);
    StepGrows(Run(c, ops[..k]), ops[k]);
  }

  // The log at the moments when[0], when[1], ... of a run, counted in requests handled.
  ghost function LogsAt(c: Chat, ops: seq<Op>, when: seq<nat>): (logs: seq<MessageTable>)
    requires forall k :: 0 <= k < |when| ==> when[k] <= |ops|
    ensures |logs| == |when|
  {
    seq(|when|, k requires 0 <= k < |when| => Run(c, ops[..when[k]]).m)
  }

  // A client reading a room's history while the service runs, page k after when[k] requests.
  lemma WalkDuringRun(c: Chat, ops: seq<Op>, when: seq<nat>, room: RoomId, n: nat, pages: seq<seq<Message>>)
    requires LogOk(c.m) && 0 < n && |when| > 0
    requires forall i, j :: 0 <= i <= j < |when| ==> when[i] <= when[j] <= |ops|
    requires ReadToEnd(LogsAt(c, ops, when), room, n, pages)
    ensures var read, start := Concat(IdLists(pages)), Run(c, ops[..when[0]]).m;
            && StrictlyDown(read) && |pages| == |read| / n + 1
            && forall id :: id in read <==> id in start.rows && start.rows[id].room == room
  {
    var logs := LogsAt(c, ops, when);
    forall i | 0 <= i < |logs| ensures LogOk(logs[i]) {
      RunGrows(c, ops, when[i], when[i]);
    }
    forall i, j | 0 <= i < j < |logs| ensures Grew(logs[i], logs[j]) {
      RunGrows(c, ops, when[i], when[j]);
    }
    ReadIsComplete(logs, room, n, pages);
  }

  // The last-message id used by room lists is 0 for an empty room and otherwise names the message
  // that heads its history, after any run.
  lemma LastMessageHeadsHistory(c: Chat, ops: seq<Op>, r: RoomId)
    requires ChatOk(c) && RunAdmissible(c, ops) && r in Run(c, ops).t.rooms
    ensures var end := Run(c, ops);
            var last := end.t.rooms[r].lastMsgId;
            && (last != 0 ==> last in end.m.rows)
            && IsPage(end.m, r, 0, 1, if last == 0 then [] else [end.m.rows[last]])
  {
    RunKeepsOk(c, ops);
    var end := Run(c, ops);
    NewestIsFirstPage(end.m, r);
    assert LastMessagesRight(end.t, end.m);
    var all := Descending(Matching(end.m, r, 0));
    if all != [] { assert all[0] in all; }
  }

  // ----- 1:1 rooms -----

  lemma {:induction false} FriendRoomsStay(c: Chat, ops: seq<Op>, i: nat, j: nat, r: RoomId)
    requires ChatOk(c) && RunAdmissible(c, ops) && i <= j <= |ops| && r in FriendsAfter(c, ops, i)
    ensures r in FriendsAfter(c, ops, j) && FriendsAfter(c, ops, j)[r] == FriendsAfter(c, ops, i)[r]
    decreases j
  {
    if i < j {
      var k := j - 1;
      FriendRoomsStay(c, ops, i, k, r);
      FriendRoomStaysNext(c, ops, k, r);
    }
  }

  ghost function FriendsAfter(c: Chat, ops: seq<Op>, k: nat): map<RoomId, Friend>
    requires k <= |ops|
  {
    Run(c, ops[..k]).t.friends
  }

  lemma FriendRoomStaysNext(c: Chat, ops: seq<Op>, k: nat, r: RoomId)
    requires ChatOk(c) && RunAdmissible(c, ops) && k < |ops| && r in FriendsAfter(c, ops, k)
    ensures r in FriendsAfter(c, ops, k + 1) && FriendsAfter(c, ops, k + 1)[r] == FriendsAfter(c, ops, k)[r]
  {
    PrefixAdmissible(c, ops, k);
    RunKeepsOk(c, ops[..k]);
    RunNext(c, ops, k);
    StepKeepsFriends(Run(c, ops[..k]), ops[k], r);
  }

  lemma StepKeepsFriends(c: Chat, op: Op, r: RoomId)
    requires ChatOk(c) && r in c.t.friends
    ensures r in Step(c, op).t.friends && Step(c, op).t.friends[r] == c.t.friends[r]
  {
    if op.CreateFriendRoom? { assert DetailRows(c.t); } else { FriendsUntouched(c, op); }
  }

  lemma FriendsUntouched(c: Chat, op: Op)
    requires !op.CreateFriendRoom?
    ensures Step(c, op).t.friends == c.t.friends
  {}

  // In a serial run a pair has one room for good: whichever of the two asks, in whichever
  // order and however much later, the room found or created is the same; and different pairs
  // have different rooms.
  lemma FriendRoomsAreCanonical(c: Chat, ops: seq<Op>, i: nat, j: nat, r: RoomId, q: RoomId, a: Uid, b: Uid, a': Uid,
                                b': Uid)
    requires ChatOk(c) && RunAdmissible(c, ops) && i <= j <= |ops|
    requires r in FriendsAfter(c, ops, i) && FriendsAfter(c, ops, i)[r] == RoomStores.Canonical(a, b)
    requires q in FriendsAfter(c, ops, j) && FriendsAfter(c, ops, j)[q] == RoomStores.Canonical(a', b')
    ensures r == q <==> {a, b} == {a', b'}
  {
    FriendRoomsStay(c, ops, i, j, r);
    PairsStayUnique(c, ops, j);
    CanonicalIffSamePair(a, b, a', b');
  }

  lemma PairsStayUnique(c: Chat, ops: seq<Op>, j: nat)
    requires ChatOk(c) && RunAdmissible(c, ops) && j <= |ops|
    ensures PairsUnique(Run(c, ops[..j]).t)
  {
    PrefixAdmissible(c, ops, j);
    RunKeepsOk(c, ops[..j]);
  }

  lemma CanonicalIffSamePair(a: Uid, b: Uid, a': Uid, b': Uid)
    ensures RoomStores.Canonical(a, b) == RoomStores.Canonical(a', b') <==> {a, b} == {a', b'}
  {
    CanonicalIsPair(a, b);
    CanonicalIsPair(a', b');
    if {a, b} == {a', b'} {
      assert a in {a', b'} && b in {a', b'} && a' in {a, b} && b' in {a, b};
    }
  }

  lemma CanonicalIsPair(a: Uid, b: Uid)
    ensures {RoomStores.Canonical(a, b).uid1, RoomStores.Canonical(a, b).uid2} == {a, b}
  {}

  // ----- Ownership -----

  // An owner is never removed and cannot leave; it stops being owner exactly when it turns a
  // role request against itself, and is an ordinary member then.
  lemma OwnershipEndsIff(c: Chat, op: Op, g: RoomId, u: Uid)
    requires ChatOk(c) && IsOwner(c.t, g, u)
    ensures !IsOwner(Step(c, op).t, g, u) <==> StepsDown(op, g, u)
    ensures (g, u) in Step(c, op).t.members
  {
    if op.SetAdmin? { RolesEndOwnership(c, op, g, u); }
    else if op.RemoveMember? || op.ExitGroup? { RemovalsSpareOwner(c, op, g, u); }
    else if ChangesMembers(op) { NewRowsSpareOwner(c, op, g, u); }
    else { MembersUntouched(c, op); }
  }

  lemma RolesEndOwnership(c: Chat, op: Op, g: RoomId, u: Uid)
    requires ChatOk(c) && IsOwner(c.t, g, u) && op.SetAdmin?
    ensures !IsOwner(Step(c, op).t, g, u) <==> op.uid == u && op.group == g && op.target == u
    ensures (g, u) in Step(c, op).t.members
  {
    assert (g, op.uid) in c.t.members && c.t.members[(g, op.uid)].role == Owner ==> IsOwner(c.t, g, op.uid);
  }

  lemma RemovalsSpareOwner(c: Chat, op: Op, g: RoomId, u: Uid)
    requires IsOwner(c.t, g, u) && (op.RemoveMember? || op.ExitGroup?)
    ensures IsOwner(Step(c, op).t, g, u)
  {}

  lemma NewRowsSpareOwner(c: Chat, op: Op, g: RoomId, u: Uid)
    requires WellFormed(c.t) && IsOwner(c.t, g, u) && (op.CreateGroup? || op.AddMember?)
    ensures IsOwner(Step(c, op).t, g, u)
  {}

  predicate ChangesMembers(op: Op) {
    op.CreateGroup? || op.AddMember? || op.RemoveMember? || op.ExitGroup? || op.SetAdmin?
  }

  lemma MembersUntouched(c: Chat, op: Op)
    requires !ChangesMembers(op)
    ensures Step(c, op).t.members == c.t.members && Step(c, op).t.groups == c.t.groups
  {}

  // Nobody becomes owner of a group that exists: once ownerless, always ownerless.
  lemma {:induction false} OwnersOnlyAtCreation(c: Chat, ops: seq<Op>, g: RoomId, u: Uid)
    requires ChatOk(c) && RunAdmissible(c, ops) && g in c.t.groups
    ensures g in Run(c, ops).t.groups
    ensures IsOwner(Run(c, ops).t, g, u) ==> IsOwner(c.t, g, u)
  {
    if ops != [] {
      var n := |ops| - 1;
      PrefixAdmissible(c, ops, n);
      RunKeepsOk(c, ops[..n]);
      OwnersOnlyAtCreation(c, ops[..n], g, u);
      NoNewOwner(Run(c, ops[..n]), ops[n], g, u);
    }
  }

  // The owner's role request against itself.
  predicate StepsDown(op: Op, g: RoomId, u: Uid) {
    op.SetAdmin? && op.uid == u && op.group == g && op.target == u
  }

  ghost predicate OwnsAfter(c: Chat, ops: seq<Op>, n: nat, g: RoomId, u: Uid)
    requires n <= |ops|
  {
    IsOwner(Run(c, ops[..n]).t, g, u)
  }

  predicate NeverDown(ops: seq<Op>, n: nat, g: RoomId, u: Uid)
    requires n <= |ops|
  {
    n == 0 || (NeverDown(ops, n - 1, g, u) && !StepsDown(ops[n - 1], g, u))
  }

  lemma {:induction false} NeverDownIff(ops: seq<Op>, n: nat, g: RoomId, u: Uid)
    requires n <= |ops|
    ensures NeverDown(ops, n, g, u) <==> forall i :: 0 <= i < n ==> !StepsDown(ops[i], g, u)
  {
    if n > 0 { NeverDownIff(ops, n - 1, g, u); }
  }

  lemma {:induction false} OwnedUpTo(c: Chat, ops: seq<Op>, n: nat, g: RoomId, u: Uid)
    requires ChatOk(c) && RunAdmissible(c, ops) && IsOwner(c.t, g, u) && n <= |ops|
    ensures OwnsAfter(c, ops, n, g, u) <==> NeverDown(ops, n, g, u)
  {
    if n > 0 {
      var k := n - 1;
      OwnedUpTo(c, ops, k, g, u);
      OwnedNext(c, ops, k, g, u);
    }
  }

  // Over a run an owner is owner exactly as long as it has not stepped down.
  lemma OwnedIff(c: Chat, ops: seq<Op>, g: RoomId, u: Uid)
    requires ChatOk(c) && RunAdmissible(c, ops) && IsOwner(c.t, g, u)
    ensures IsOwner(Run(c, ops).t, g, u) <==> forall i :: 0 <= i < |ops| ==> !StepsDown(ops[i], g, u)
  {
    OwnedUpTo(c, ops, |ops|, g, u);
    NeverDownIff(ops, |ops|, g, u);
    assert ops[..|ops|] == ops;
  }

  lemma OwnedNext(c: Chat, ops: seq<Op>, k: nat, g: RoomId, u: Uid)
    requires ChatOk(c) && RunAdmissible(c, ops) && IsOwner(c.t, g, u) && k < |ops|
    ensures OwnsAfter(c, ops, k + 1, g, u) <==> OwnsAfter(c, ops, k, g, u) && !StepsDown(ops[k], g, u)
  {
    PrefixAdmissible(c, ops, k);
    RunKeepsOk(c, ops[..k]);
    OwnersOnlyAtCreation(c, ops[..k], g, u);
    RunNext(c, ops, k);
    if IsOwner(Run(c, ops[..k]).t, g, u) {
      OwnershipEndsIff(Run(c, ops[..k]), ops[k], g, u);
    } else {
      NoNewOwner(Run(c, ops[..k]), ops[k], g, u);
    }
  }

  lemma NoNewOwner(c: Chat, op: Op, g: RoomId, u: Uid)
    requires ChatOk(c) && g in c.t.groups
    ensures g in Step(c, op).t.groups
    ensures IsOwner(Step(c, op).t, g, u) ==> IsOwner(c.t, g, u)
  {
    if op.CreateGroup? || op.AddMember? { NewRowsNotOwners(c, op, g, u); }
    else if ChangesMembers(op) { OldRowsNotOwners(c, op, g, u); }
    else { MembersUntouched(c, op); }
  }

  lemma NewRowsNotOwners(c: Chat, op: Op, g: RoomId, u: Uid)
    requires DetailRows(c.t) && g in c.t.groups && (op.CreateGroup? || op.AddMember?)
    ensures g in Step(c, op).t.groups
    ensures IsOwner(Step(c, op).t, g, u) ==> IsOwner(c.t, g, u)
  {}

  lemma OldRowsNotOwners(c: Chat, op: Op, g: RoomId, u: Uid)
    requires g in c.t.groups && (op.RemoveMember? || op.ExitGroup? || op.SetAdmin?)
    ensures g in Step(c, op).t.groups
    ensures IsOwner(Step(c, op).t, g, u) ==> IsOwner(c.t, g, u)
  {}

  // ----- Recall -----

  // The i-th request of a run is an accepted recall of message id.
  ghost predicate RecalledAt(c: Chat, ops: seq<Op>, i: nat, id: MsgId)
    requires i < |ops|
  {
    ops[i].Recall? && ops[i].msg == id && Reply(Run(c, ops[..i]), ops[i]) == Ok
  }

  ghost predicate IsDeleted(m: MessageTable, id: MsgId) {
    id in m.rows && m.rows[id].deleted
  }

  // A message is deleted exactly when it was to begin with or some request recalled it.
  lemma {:induction false} DeletedIffRecalled(c: Chat, ops: seq<Op>, id: MsgId)
    requires LogOk(c.m)
    ensures IsDeleted(Run(c, ops).m, id)
       <==> IsDeleted(c.m, id) || exists i :: 0 <= i < |ops| && RecalledAt(c, ops, i, id)
  {
    if ops != [] {
      var n := |ops| - 1;
      DeletedIffRecalled(c, ops[..n], id);
      RunGrows(c, ops, n, n);
      var mid := Run(c, ops[..n]);
      forall i | 0 <= i < n ensures RecalledAt(c, ops[..n], i, id) <==> RecalledAt(c, ops, i, id) {
        assert ops[..n][..i] == ops[..i];
      }
      OneMoreDeleted(mid, ops[n], id);
      assert RecalledAt(c, ops, n, id) <==> ops[n].Recall? && ops[n].msg == id && Reply(mid, ops[n]) == Ok;
    }
  }

  lemma OneMoreDeleted(c: Chat, op: Op, id: MsgId)
    requires LogOk(c.m)
    ensures IsDeleted(Step(c, op).m, id)
       <==> IsDeleted(c.m, id) || (op.Recall? && op.msg == id && Reply(c, op) == Ok)
  {}

  // Every message deleted during a run was deleted at the request of somebody entitled then;
  // and a request by somebody entitled always deletes.
  lemma DeletedIffEntitledRequest(c: Chat, ops: seq<Op>, id: MsgId)
    requires LogOk(c.m)
    ensures IsDeleted(Run(c, ops).m, id)
       <==> IsDeleted(c.m, id) || exists i :: 0 <= i < |ops| && EntitledAt(c, ops, i, id)
  {
    DeletedIffRecalled(c, ops, id);
    forall i | 0 <= i < |ops| ensures RecalledAt(c, ops, i, id) <==> EntitledAt(c, ops, i, id) {}
    if i :| 0 <= i < |ops| && RecalledAt(c, ops, i, id) { assert EntitledAt(c, ops, i, id); }
    if i :| 0 <= i < |ops| && EntitledAt(c, ops, i, id) { assert RecalledAt(c, ops, i, id); }
  }

  ghost predicate EntitledAt(c: Chat, ops: seq<Op>, i: nat, id: MsgId)
    requires i < |ops|
  {
    match ops[i]
    case Recall(uid, msg, when) =>
      msg == id && Entitled(Run(c, ops[..i]).t, Run(c, ops[..i]).m, uid, id, when.check)
    case _ => false
  }

  // Recalling is quiet: no room moves, no counter changes, no page gains or loses an entry.
  lemma RecallIsQuiet(c: Chat, uid: Uid, id: MsgId, when: RecallTimes, room: RoomId, before: MsgId, limit: nat)
    ensures var c' := Step(c, Recall(uid, id, when));
            && c'.t == c.t && c'.online == c.online && c'.m.nextId == c.m.nextId
            && CursorIds(c'.m, room, before, limit) == CursorIds(c.m, room, before, limit)
  {
    var c' := Step(c, Recall(uid, id, when));
    assert Matching(c'.m, room, before) == Matching(c.m, room, before);
  }
}
