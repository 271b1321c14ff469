/** Every kind of request spelled out, column by column: when it is refused and how, and what
    the tables, the log and the wires hold afterwards. Nothing here goes by the functions that
    Chats.Step is composed of; numbers stand for themselves. */
module Requests {
  import opened Domain
  import opened Tables
  import opened MessageLog
  import opened Hubs
  import opened Chats

  // ----- Terms -----

  // u has a row in group r, or is one of the pair.
  ghost predicate Belongs(t: Tables, r: RoomId, u: Uid) {
    && r in t.rooms
    && match t.rooms[r].kind
       case GroupRoom => (r, u) in t.members
       case FriendRoom => r in t.friends && (u == t.friends[r].uid1 || u == t.friends[r].uid2)
  }

  ghost predicate MayPost(t: Tables, r: RoomId, u: Uid) {
    r in t.rooms && (t.rooms[r].hot || Belongs(t, r, u))
  }

  ghost predicate HasRole(t: Tables, g: RoomId, u: Uid, role: Role) {
    (g, u) in t.members && t.members[(g, u)].role == role
  }

  // Texts (1, also sent as 0) and emoji (2) need words, images (5) and videos (6) a file.
  ghost predicate HasBody(req: SendRequest) {
    || (req.kind in {0, 1, 2} && req.content != "")
    || (req.kind in {5, 6} && req.extra.Some? && req.extra.value != "")
  }

  // msg is what req asked uid's message to be.
  ghost predicate Carries(msg: Message, uid: Uid, req: SendRequest) {
    && msg.room == req.room && msg.from == uid && msg.content == req.content
    && msg.kind == (if req.kind == 0 then 1 else req.kind)
    && msg.replyTo == req.replyTo
    && msg.extra == (if req.extra == Some("") then None else req.extra)
  }

  // Each connection held by one of `to` has got one more payload, every other is as it was.
  ghost predicate Delivered(c: Chat, c': Chat, to: iset<Uid>, payload: Payload) {
    && c'.wire.Keys == c.wire.Keys && c'.online == c.online
    && forall k :: k in c.wire ==>
         c'.wire[k] == c.wire[k] + if exists u: Uid :: (u, k) in c.online && u in to then [payload] else []
  }

  lemma StampDelivers(c: Chat, c': Chat, hot: bool, us: set<Uid>, to: iset<Uid>, payload: Payload)
    requires c'.online == c.online && c'.wire == Stamp(c.wire, Reached(c.online, hot, us), payload)
    requires forall u: Uid :: u in to <==> hot || u in us
    ensures Delivered(c, c', to, payload)
  {
    forall k | k in c.wire
      ensures k in Reached(c.online, hot, us) <==> exists u: Uid :: (u, k) in c.online && u in to
    {
      if k in Reached(c.online, hot, us) {
        var p :| p in c.online && (hot || p.0 in us) && p.1 == k;
        assert (p.0, k) in c.online && p.0 in to;
      }
    }
  }

  lemma InRoom(t: Tables, r: RoomId, u: Uid)
    requires DetailRows(t)
    ensures u in Participants(t, r) <==> Belongs(t, r, u)
  {
    if r in t.rooms && t.rooms[r].kind.GroupRoom? {
      assert u in Participants(t, r) <==> (r, u) in t.members;
    }
  }

  // Those a message in r goes to.
  ghost function Audience(t: Tables, r: RoomId): iset<Uid> {
    iset u: Uid | MayPost(t, r, u)
  }

  lemma AudienceIs(t: Tables, r: RoomId)
    requires DetailRows(t) && r in t.rooms
    ensures forall u: Uid :: u in Audience(t, r) <==> t.rooms[r].hot || u in Participants(t, r)
  {
    forall u: Uid ensures u in Audience(t, r) <==> t.rooms[r].hot || u in Participants(t, r) {
      InRoom(t, r, u);
    }
  }

  // ----- send -----

  lemma SendAnswers(c: Chat, uid: Uid, req: SendRequest, at: SendTimes)
    ensures var reply := Reply(c, Send(uid, req, at));
            && (reply == BadRequest <==> req.room == 0 || !HasBody(req))
            && (reply == NotFound <==> req.room != 0 && HasBody(req) && req.room !in c.t.rooms)
            && (reply == Forbidden <==>
                  req.room != 0 && HasBody(req) && req.room in c.t.rooms && !MayPost(c.t, req.room, uid))
            && (reply == Ok <==> req.room != 0 && HasBody(req) && MayPost(c.t, req.room, uid))
  {}

  // One new row in the log, which says what was sent; every other row stays.
  lemma SendStores(c: Chat, uid: Uid, req: SendRequest, at: SendTimes)
    requires LogOk(c.m) && Reply(c, Send(uid, req, at)) == Ok
    ensures var m, id := Step(c, Send(uid, req, at)).m, c.m.nextId;
            && id !in c.m.rows && m.nextId == id + 1
            && m.rows.Keys == c.m.rows.Keys + {id} && (forall q :: q in c.m.rows ==> m.rows[q] == c.m.rows[q])
            && m.rows[id].id == id && Carries(m.rows[id], uid, req)
            && !m.rows[id].deleted && m.rows[id].created == at.insert
  {}

  // What is pushed says the same, but for the clock it was stamped by.
  lemma SendPushes(c: Chat, uid: Uid, req: SendRequest, at: SendTimes)
    requires ChatOk(c) && Reply(c, Send(uid, req, at)) == Ok
    ensures var c' := Step(c, Send(uid, req, at));
            exists msg ::
              && Delivered(c, c', Audience(c.t, req.room), ChatMessage(msg))
              && msg.id == c.m.nextId && Carries(msg, uid, req) && !msg.deleted && msg.created == at.stamp
  {
    var c' := Step(c, Send(uid, req, at));
    var msg := NewMessage(c, uid, req, at).(created := at.stamp);
    AudienceIs(c.t, req.room);
    StampDelivers(c, c', c.t.rooms[req.room].hot, Participants(c.t, req.room), Audience(c.t, req.room),
                  ChatMessage(msg));
    assert Carries(msg, uid, req);
  }

  // Of the tables only the room's recency and the counters change.
  lemma SendTouches(c: Chat, uid: Uid, req: SendRequest, at: SendTimes)
    requires Reply(c, Send(uid, req, at)) == Ok
    ensures var t := Step(c, Send(uid, req, at)).t;
            && t.groups == c.t.groups && t.friends == c.t.friends && t.members == c.t.members
            && t.nextRoom == c.t.nextRoom && t.nextMember == c.t.nextMember
            && t.rooms.Keys == c.t.rooms.Keys
            && (forall r :: r in c.t.rooms && r != req.room ==> t.rooms[r] == c.t.rooms[r])
            && t.rooms[req.room] == Room(c.t.rooms[req.room].kind, c.t.rooms[req.room].hot, at.touch, c.m.nextId)
  {}

  // One more for everybody else in a room that is not hot, none for the sender.
  lemma SendCounts(c: Chat, uid: Uid, req: SendRequest, at: SendTimes, u: Uid, r: RoomId)
    requires ChatOk(c) && Reply(c, Send(uid, req, at)) == Ok
    ensures var before, after := RowOf(c.t, u, r), RowOf(Step(c, Send(uid, req, at)).t, u, r);
            after == if r != req.room || c.t.rooms[r].hot || !Belongs(c.t, r, u) then before
                     else if u == uid then Some(Contact(before.GetOr(Contact(at.reset, 0)).activeTime, 0))
                     else Some(Contact(at.bump, before.GetOr(Contact(0, 0)).unread + 1))
  {
    SendTracks(c, uid, req, at);
    InRoom(c.t, req.room, u);
    InRoom(c.t, req.room, uid);
    TrackCounts(c.t, req.room, uid, c.m.nextId, at, u, r);
  }

  lemma SendTracks(c: Chat, uid: Uid, req: SendRequest, at: SendTimes)
    requires ChatOk(c) && Reply(c, Send(uid, req, at)) == Ok
    ensures req.room in c.t.rooms && Step(c, Send(uid, req, at)).t == Track(c.t, req.room, uid, c.m.nextId, at)
    ensures c.t.rooms[req.room].hot || uid in Participants(c.t, req.room)
  {
    if !c.t.rooms[req.room].hot { ParticipantsAreParticipants(c.t, req.room, uid); }
  }

  lemma TrackCounts(t: Tables, room: RoomId, sender: Uid, id: MsgId, at: SendTimes, u: Uid, r: RoomId)
    requires room in t.rooms
    ensures var before, after := RowOf(t, u, r), RowOf(Track(t, room, sender, id, at), u, r);
            after == if r != room || t.rooms[room].hot then before
                     else if u == sender then Some(Contact(before.GetOr(Contact(at.reset, 0)).activeTime, 0))
                     else if u !in Participants(t, room) then before
                     else Some(Contact(at.bump, before.GetOr(Contact(0, 0)).unread + 1))
  {
    var bumped := BumpSet(t.contacts, room, Participants(t, room) - {sender}, at.bump);
    assert (u, r) in bumped <==> (u, r) in t.contacts || (r == room && u in Participants(t, room) - {sender});
  }

  function RowOf(t: Tables, u: Uid, r: RoomId): Option<Contact> {
    if (u, r) in t.contacts then Some(t.contacts[(u, r)]) else None
  }

  // ----- recall -----

  // Owners and admins of the message's room at any time, its sender for two minutes.
  ghost predicate MayRecall(t: Tables, msg: Message, uid: Uid, now: Time) {
    || HasRole(t, msg.room, uid, Owner) || HasRole(t, msg.room, uid, Admin)
    || (msg.from == uid && now <= msg.created + 120)
  }

  lemma RecallAnswers(c: Chat, uid: Uid, id: MsgId, when: RecallTimes)
    ensures var reply := Reply(c, Recall(uid, id, when));
            && (reply == NotFound <==> id !in c.m.rows)
            && (reply == Ok <==> id in c.m.rows && MayRecall(c.t, c.m.rows[id], uid, when.check))
            && (reply == Forbidden <==> id in c.m.rows && !MayRecall(c.t, c.m.rows[id], uid, when.check))
  {}

  // The mark, and the message once more to its audience of now.
  lemma RecallMarks(c: Chat, uid: Uid, id: MsgId, when: RecallTimes)
    requires ChatOk(c) && Reply(c, Recall(uid, id, when)) == Ok
    ensures var c', msg := Step(c, Recall(uid, id, when)), c.m.rows[id].(deleted := true);
            && c'.t == c.t && c'.m == MessageTable(c.m.rows[id := msg], c.m.nextId)
            && Delivered(c, c', Audience(c.t, msg.room), ChatMessage(msg))
  {
    var c', msg := Step(c, Recall(uid, id, when)), c.m.rows[id].(deleted := true);
    AudienceIs(c.t, msg.room);
    StampDelivers(c, c', c.t.rooms[msg.room].hot, Participants(c.t, msg.room), Audience(c.t, msg.room),
                  ChatMessage(msg));
  }

  // ----- Call invitations -----

  lemma InviteAnswers(c: Chat, uid: Uid, room: RoomId, mode: string)
    ensures var reply := Reply(c, Invite(uid, room, mode));
            && (reply == BadRequest <==> room == 0)
            && (reply == NotFound <==> room != 0 && room !in c.t.rooms)
            && (reply == Forbidden <==> room != 0 && room in c.t.rooms && !MayPost(c.t, room, uid))
            && (reply == Ok <==> room != 0 && MayPost(c.t, room, uid))
  {}

  // In a group, hot or not, its other members; in a 1:1 room the other one, the first of the
  // pair for a caller outside it.
  ghost function Rung(t: Tables, r: RoomId, uid: Uid): iset<Uid> {
    iset u: Uid | if r in t.friends then u == if t.friends[r].uid1 == uid then t.friends[r].uid2 else t.friends[r].uid1
             else (r, u) in t.members && u != uid
  }

  lemma InviteRings(c: Chat, uid: Uid, room: RoomId, mode: string)
    requires ChatOk(c) && Reply(c, Invite(uid, room, mode)) == Ok
    ensures var c' := Step(c, Invite(uid, room, mode));
            && c'.t == c.t && c'.m == c.m
            && Delivered(c, c', Rung(c.t, room, uid), CallInvite(room, uid, if mode == "video" then mode else "audio"))
  {
    var c' := Step(c, Invite(uid, room, mode));
    forall u: Uid ensures u in Rung(c.t, room, uid) <==> u in Callees(c.t, room, uid) {
      InRoom(c.t, room, u);
    }
    StampDelivers(c, c', false, Callees(c.t, room, uid), Rung(c.t, room, uid),
                  CallInvite(room, uid, CallMode(mode)));
  }

  // ----- Rooms -----

  // One unread counter is reset, whoever asks; its time stays.
  lemma MarkReadClears(c: Chat, uid: Uid, room: RoomId, now: Time)
    ensures var c' := Step(c, MarkRead(uid, room, now));
            && Reply(c, MarkRead(uid, room, now)) == Ok
            && c'.m == c.m && c'.wire == c.wire && c'.online == c.online && c'.t.(contacts := c.t.contacts) == c.t
            && c'.t.contacts
               == c.t.contacts[(uid, room) := Contact(RowOf(c.t, uid, room).GetOr(Contact(now, 0)).activeTime, 0)]
  {}

  // The new room has the next id, is active now and names no message.
  ghost predicate NewRoom(t: Tables, t': Tables, kind: RoomKind, now: Time) {
    && t'.rooms == t.rooms[t.nextRoom := Room(kind, false, now, 0)] && t'.nextRoom == t.nextRoom + 1
    && t'.contacts == t.contacts
  }

  lemma GroupIsMade(c: Chat, uid: Uid, name: string, avatar: string, now: Time)
    ensures var op := CreateGroup(uid, name, avatar, now);
            var c', reply := Step(c, op), Reply(c, op);
            && c'.m == c.m && c'.wire == c.wire && c'.online == c.online
            && if name == "" then reply == BadRequest && c'.t == c.t
               else
                 && reply == Ok && NewRoom(c.t, c'.t, GroupRoom, now)
                 && c'.t.groups == c.t.groups[c.t.nextRoom := Group(name, avatar)] && c'.t.friends == c.t.friends
                 && c'.t.members == c.t.members[(c.t.nextRoom, uid) := MemberRow(c.t.nextMember, Owner)]
                 && c'.t.nextMember == c.t.nextMember + 1
  {}

  // A pair is stored with the smaller uid first, and once.
  lemma PairIsMade(c: Chat, uid: Uid, other: Uid, now: Time)
    requires DetailRows(c.t)
    ensures var c', reply := Step(c, CreateFriendRoom(uid, other, now)), Reply(c, CreateFriendRoom(uid, other, now));
            && c'.m == c.m && c'.wire == c.wire && c'.online == c.online
            && if other == 0 || other == uid then reply == BadRequest && c'.t == c.t
               else
                 && reply == Ok
                 && if Known(c.t, uid, other) then c'.t == c.t
                    else
                      && NewRoom(c.t, c'.t, FriendRoom, now)
                      && c'.t.friends == c.t.friends[c.t.nextRoom := if uid < other then Friend(uid, other)
                                                                     else Friend(other, uid)]
                      && c'.t.groups == c.t.groups && c'.t.members == c.t.members
                      && c'.t.nextMember == c.t.nextMember
  {
    var pair := if uid < other then Friend(uid, other) else Friend(other, uid);
    assert Known(c.t, uid, other) <==> pair in c.t.friends.Values || (uid == other && Known(c.t, uid, other));
  }

  // A room of these two.
  ghost predicate Known(t: Tables, a: Uid, b: Uid) {
    exists r :: r in t.friends && {t.friends[r].uid1, t.friends[r].uid2} == {a, b}
  }

  // Any member adds, and whoever joins joins as an ordinary member.
  lemma MemberIsAdded(c: Chat, uid: Uid, g: RoomId, target: Uid)
    ensures var c', reply := Step(c, AddMember(uid, g, target)), Reply(c, AddMember(uid, g, target));
            if target == 0 then reply == BadRequest && c' == c
            else if (g, uid) !in c.t.members then reply == Forbidden && c' == c
            else if (g, target) in c.t.members then reply == ServerError && c' == c
            else
              && reply == Ok && c' == c.(t := c'.t)
              && c'.t == c.t.(members := c'.t.members, nextMember := c.t.nextMember + 1)
              && c'.t.members == c.t.members[(g, target) := MemberRow(c.t.nextMember, Member)]
  {}

  // Removal goes strictly down the ranks; an owner cannot leave.
  lemma MemberIsRemoved(c: Chat, uid: Uid, g: RoomId, target: Uid)
    ensures var c', reply := Step(c, RemoveMember(uid, g, target)), Reply(c, RemoveMember(uid, g, target));
            if (g, uid) !in c.t.members then reply == Forbidden && c' == c
            else if (g, target) !in c.t.members then reply == NotFound && c' == c
            else if HasRole(c.t, g, target, Owner) || HasRole(c.t, g, uid, Member)
                    || (HasRole(c.t, g, target, Admin) && !HasRole(c.t, g, uid, Owner))
            then reply == Forbidden && c' == c
            else reply == Ok && c' == c.(t := c.t.(members := c.t.members - {(g, target)}))
  {}

  lemma MemberLeaves(c: Chat, uid: Uid, g: RoomId)
    ensures var c', reply := Step(c, ExitGroup(uid, g)), Reply(c, ExitGroup(uid, g));
            if (g, uid) !in c.t.members || HasRole(c.t, g, uid, Owner) then reply == Forbidden && c' == c
            else reply == Ok && c' == c.(t := c.t.(members := c.t.members - {(g, uid)}))
  {}

  // Only the owner gives roles, to members only, and there are two to give.
  lemma RoleIsGiven(c: Chat, uid: Uid, g: RoomId, target: Uid, isAdmin: bool)
    ensures var c', reply := Step(c, SetAdmin(uid, g, target, isAdmin)), Reply(c, SetAdmin(uid, g, target, isAdmin));
            if !HasRole(c.t, g, uid, Owner) then reply == Forbidden && c' == c
            else if (g, target) !in c.t.members then reply == Ok && c' == c
            else
              && reply == Ok
              && var row := MemberRow(c.t.members[(g, target)].id, if isAdmin then Admin else Member);
                 c' == c.(t := c.t.(members := c.t.members[(g, target) := row]))
  {}
}
