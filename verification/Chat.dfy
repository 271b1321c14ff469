/** What the service promises, without caches, lists or loops: the state a user can observe
    and the effect of one request on it. The handlers are proved to refine this. */
module Chats {
  import opened Domain
  import opened Tables
  import opened MessageLog
  import opened Hubs
  import RoomStores

  datatype Chat = Chat(t: Tables, m: MessageTable, online: set<(Uid, Conn)>, wire: Wire)

  datatype SendRequest = SendRequest(room: RoomId, content: string, kind: int, replyTo: MsgId, extra: Option<string>)

  // The instants at which one send reaches the cache, the tables and the clock, all before
  // its context ends.
  datatype SendTimes = SendTimes(
    check: Time, insert: Time, stamp: Time, push: Time, touch: Time, tally: Time, bump: Time, reset: Time)
  {
    predicate Ordered() {
      check <= insert <= stamp <= push <= touch <= tally <= bump <= reset <= check + REQUEST_DEADLINE
    }
  }

  datatype RecallTimes = RecallTimes(check: Time, push: Time)

  datatype Op =
    | Send(uid: Uid, req: SendRequest, at: SendTimes)
    | Recall(uid: Uid, msg: MsgId, when: RecallTimes)
    | MarkRead(uid: Uid, room: RoomId, now: Time)
    | CreateFriendRoom(uid: Uid, other: Uid, now: Time)
    | CreateGroup(uid: Uid, name: string, avatar: string, now: Time)
    | AddMember(uid: Uid, group: RoomId, target: Uid)
    | RemoveMember(uid: Uid, group: RoomId, target: Uid)
    | ExitGroup(uid: Uid, group: RoomId)
    | SetAdmin(uid: Uid, group: RoomId, target: Uid, isAdmin: bool)
    | Invite(uid: Uid, room: RoomId, mode: string)
    | Connect(uid: Uid, conn: Conn)
    | Disconnect(uid: Uid, conn: Conn)
    | SkipIds(rooms: nat, messages: nat)   // no request: other transactions rolled back

  // ----- Replies -----

  function EffectiveKind(req: SendRequest): int {
    if req.kind == 0 then TYPE_TEXT else req.kind
  }

  predicate Acceptable(req: SendRequest) {
    var kind := EffectiveKind(req);
    if kind == TYPE_TEXT || kind == TYPE_EMOJI then req.content != ""
    else if kind == TYPE_IMAGE || kind == TYPE_VIDEO then req.extra.Some? && req.extra.value != ""
    else false
  }

  // The role recall acts under; outside the group it is an ordinary member's.
  function ActingRole(t: Tables, room: RoomId, u: Uid): Role {
    if (room, u) in t.members then t.members[(room, u)].role else Member
  }

  function SendReply(t: Tables, uid: Uid, req: SendRequest): Status {
    if req.room == 0 || !Acceptable(req) then BadRequest
    else if req.room !in t.rooms then NotFound
    else if !IsParticipant(t, req.room, uid) then Forbidden
    else Ok
  }

  function Reply(c: Chat, op: Op): Status {
    match op
    case Send(uid, req, at) => SendReply(c.t, uid, req)
    case Recall(uid, id, at) =>
      if id !in c.m.rows then NotFound
      else
        var msg := c.m.rows[id];
        if CanRecall(msg.from, uid, ActingRole(c.t, msg.room, uid), msg.created, at.check) then Ok else Forbidden
    case MarkRead(uid, room, now) => Ok
    case CreateFriendRoom(uid, other, now) => if other == 0 || other == uid then BadRequest else Ok
    case CreateGroup(uid, name, avatar, now) => if name == "" then BadRequest else Ok
    case AddMember(uid, g, target) =>
      if target == 0 then BadRequest
      else if (g, uid) !in c.t.members then Forbidden
      else if (g, target) in c.t.members then ServerError
      else Ok
    case RemoveMember(uid, g, target) =>
      if (g, uid) !in c.t.members then Forbidden
      else if (g, target) !in c.t.members then NotFound
      else if !CanRemoveMember(c.t.members[(g, uid)].role, c.t.members[(g, target)].role) then Forbidden
      else Ok
    case ExitGroup(uid, g) =>
      if (g, uid) !in c.t.members || c.t.members[(g, uid)].role == Owner then Forbidden else Ok
    case SetAdmin(uid, g, target, isAdmin) =>
      if (g, uid) !in c.t.members || !CanSetAdmin(c.t.members[(g, uid)].role) then Forbidden else Ok
    case Invite(uid, room, mode) =>
      if room == 0 then BadRequest
      else if room !in c.t.rooms then NotFound
      else if !IsParticipant(c.t, room, uid) then Forbidden
      else Ok
    case Connect(uid, conn) => Ok
    case Disconnect(uid, conn) => Ok
    case SkipIds(rooms, messages) => Ok
  }

  // At `now`, the message exists and the actor is an owner or admin of its room, or sent it at
  // most two minutes before.
  ghost predicate Entitled(t: Tables, m: MessageTable, actor: Uid, id: MsgId, now: Time) {
    && id in m.rows
    && var msg := m.rows[id];
       || ((msg.room, actor) in t.members && t.members[(msg.room, actor)].role in {Owner, Admin})
       || (actor == msg.from && now - msg.created <= 120)
  }

  // ----- Effects -----

  // A payload for room r reaches everyone online when r is hot, its participants otherwise.
  function Push(c: Chat, r: RoomId, payload: Payload): Chat
    requires r in c.t.rooms
  {
    c.(wire := Stamp(c.wire, Reached(c.online, c.t.rooms[r].hot, Participants(c.t, r)), payload))
  }

  function NewMessage(c: Chat, uid: Uid, req: SendRequest, at: SendTimes): Message {
    Message(c.m.nextId, req.room, uid, req.content, EffectiveKind(req), req.replyTo, false,
            if req.extra.Some? && req.extra.value != "" then req.extra else None, at.insert)
  }

  // Recency for every room; unread counts of the others for rooms that are not hot.
  function Track(t: Tables, r: RoomId, sender: Uid, id: MsgId, at: SendTimes): Tables
    requires r in t.rooms
  {
    var t1 := Touch(t, r, id, at.touch);
    if t.rooms[r].hot then t1
    else
      var bumped := BumpSet(t.contacts, r, Participants(t, r) - {sender}, at.bump);
      t1.(contacts := ClearUnread(bumped, sender, r, at.reset))
  }

  function AfterSend(c: Chat, uid: Uid, req: SendRequest, at: SendTimes): Chat
    requires req.room in c.t.rooms
  {
    var msg := NewMessage(c, uid, req, at);
    var inserted := c.(m := InsertMessage(c.m, msg, at.insert));
    var pushed := Push(inserted, req.room, ChatMessage(msg.(created := at.stamp)));
    pushed.(t := Track(c.t, req.room, uid, msg.id, at))
  }

  function AfterRecall(c: Chat, id: MsgId): Chat
    requires id in c.m.rows
  {
    var marked := c.(m := MarkDeleted(c.m, id));
    var msg := marked.m.rows[id];
    if msg.room in c.t.rooms then Push(marked, msg.room, ChatMessage(msg)) else marked
  }

  function AfterFriendRoom(t: Tables, a: Uid, b: Uid, now: Time): Tables {
    var pair := RoomStores.Canonical(a, b);
    if pair in t.friends.Values then t else InsertFriendRoom(t, pair.uid1, pair.uid2, now)
  }

  function CallMode(mode: string): string {
    if mode != "audio" && mode != "video" then "audio" else mode
  }

  // A call rings the other participants; in a hot room that is still only its members.
  function AfterInvite(c: Chat, uid: Uid, room: RoomId, mode: string): Chat {
    c.(wire := Stamp(c.wire, Reached(c.online, false, Callees(c.t, room, uid)), CallInvite(room, uid, CallMode(mode))))
  }

  function Callees(t: Tables, r: RoomId, uid: Uid): set<Uid> {
    if r in t.friends && !IsFriendOf(t.friends[r], uid) then {t.friends[r].uid1}
    else Participants(t, r) - {uid}
  }

  function Step(c: Chat, op: Op): Chat {
    if Reply(c, op) != Ok then c else
    match op
    case Send(uid, req, at) => AfterSend(c, uid, req, at)
    case Recall(uid, id, at) => AfterRecall(c, id)
    case MarkRead(uid, room, now) => c.(t := c.t.(contacts := ClearUnread(c.t.contacts, uid, room, now)))
    case CreateFriendRoom(uid, other, now) => c.(t := AfterFriendRoom(c.t, uid, other, now))
    case CreateGroup(uid, name, avatar, now) => c.(t := InsertGroupRoom(c.t, uid, name, avatar, now))
    case AddMember(uid, g, target) => c.(t := InsertMember(c.t, g, target, Member))
    case RemoveMember(uid, g, target) => c.(t := DeleteMember(c.t, g, target))
    case ExitGroup(uid, g) => c.(t := DeleteMember(c.t, g, uid))
    case SetAdmin(uid, g, target, isAdmin) => c.(t := UpdateRole(c.t, g, target, if isAdmin then Admin else Member))
    case Invite(uid, room, mode) => AfterInvite(c, uid, room, mode)
    case Connect(uid, conn) =>
      c.(online := c.online + {(uid, conn)}, wire := if conn in c.wire then c.wire else c.wire[conn := []])
    case Disconnect(uid, conn) => c.(online := c.online - {(uid, conn)})
    case SkipIds(rooms, messages) => c.(t := SkipRoomIds(c.t, rooms), m := SkipMessageIds(c.m, messages))
  }

  function Run(c: Chat, ops: seq<Op>): Chat {
    if ops == [] then c else Step(Run(c, ops[..|ops| - 1]), ops[|ops| - 1])
  }

  // ----- Invariant of every reachable state -----

  ghost predicate ChatOk(c: Chat) {
    && WellFormed(c.t) && PairsUnique(c.t)
    && LogOk(c.m)
    && LastMessagesRight(c.t, c.m)
    && OneUidEach(c.online)
    && (forall p :: p in c.online ==> p.1 in c.wire)
  }

  // A connection is opened by one request, under that request's uid.
  ghost predicate Admissible(c: Chat, op: Op) {
    op.Connect? ==> forall p :: p in c.online && p.1 == op.conn ==> p.0 == op.uid
  }

  ghost predicate RunAdmissible(c: Chat, ops: seq<Op>) {
    ops == []
    || (RunAdmissible(c, ops[..|ops| - 1]) && Admissible(Run(c, ops[..|ops| - 1]), ops[|ops| - 1]))
  }

  // Messages belong to rooms, and each room points at its newest message.
  ghost predicate LastMessagesRight(t: Tables, m: MessageTable) {
    && (forall id :: id in m.rows ==> m.rows[id].room in t.rooms)
    && (forall r :: r in t.rooms ==> t.rooms[r].lastMsgId == Newest(m, r))
  }

  lemma InsertThenTouch(t: Tables, m: MessageTable, msg: Message, now: Time, touched: Time,
                       cs: map<(Uid, RoomId), Contact>)
    requires WellFormed(t) && LogOk(m) && LastMessagesRight(t, m) && msg.room in t.rooms
    ensures LogOk(InsertMessage(m, msg, now))
    ensures LastMessagesRight(Touch(t, msg.room, m.nextId, touched).(contacts := cs), InsertMessage(m, msg, now))
  {
    var t', m' := Touch(t, msg.room, m.nextId, touched).(contacts := cs), InsertMessage(m, msg, now);
    forall r | r in t'.rooms ensures t'.rooms[r].lastMsgId == Newest(m', r) {
      NewestAfter(m, msg, now, r, 0);
      assert r in t.rooms;
    }
    forall id | id in m'.rows ensures m'.rows[id].room in t'.rooms {
      assert id == m.nextId || id in m.rows;
    }
  }

  lemma DeleteKeepsLast(t: Tables, m: MessageTable, id: MsgId)
    requires LogOk(m) && LastMessagesRight(t, m) && id in m.rows
    ensures LogOk(MarkDeleted(m, id)) && LastMessagesRight(t, MarkDeleted(m, id))
  {
    forall r { NewestAfter(m, m.rows[id], 0, r, id); }
  }

  lemma SkipKeepsLast(t: Tables, m: MessageTable, rooms: nat, messages: nat)
    requires LogOk(m) && LastMessagesRight(t, m)
    ensures LogOk(SkipMessageIds(m, messages)) && LastMessagesRight(SkipRoomIds(t, rooms), SkipMessageIds(m, messages))
  {
    forall r { SkippingMovesNoHead(m, messages, r); }
  }

  lemma SkippingMovesNoHead(m: MessageTable, n: nat, r: RoomId)
    ensures Newest(SkipMessageIds(m, n), r) == Newest(m, r)
  {
    assert Matching(SkipMessageIds(m, n), r, 0) == Matching(m, r, 0);
  }

  lemma SendKeepsOk(c: Chat, uid: Uid, req: SendRequest, at: SendTimes)
    requires ChatOk(c) && req.room in c.t.rooms
    ensures ChatOk(AfterSend(c, uid, req, at))
  {
    var msg := NewMessage(c, uid, req, at);
    var cs := Track(c.t, req.room, uid, msg.id, at).contacts;
    assert Track(c.t, req.room, uid, msg.id, at) == Touch(c.t, req.room, msg.id, at.touch).(contacts := cs);
    TouchOk(c.t, req.room, msg.id, at.touch, cs);
    InsertThenTouch(c.t, c.m, msg, at.insert, at.touch, cs);
  }

  lemma RecallKeepsOk(c: Chat, id: MsgId)
    requires ChatOk(c) && id in c.m.rows
    ensures ChatOk(AfterRecall(c, id))
  {
    DeleteKeepsLast(c.t, c.m, id);
  }

  lemma RoomsWithoutMessages(c: Chat, r: RoomId)
    requires ChatOk(c) && r !in c.t.rooms
    ensures Newest(c.m, r) == 0
  {
    assert Matching(c.m, r, 0) == {};
  }

  lemma TablesKeepOk(c: Chat, t: Tables)
    requires ChatOk(c) && WellFormed(t) && PairsUnique(t) && LastMessagesRight(t, c.m)
    ensures ChatOk(c.(t := t))
  {}

  lemma MarkReadKeepsOk(c: Chat, uid: Uid, room: RoomId, now: Time)
    requires ChatOk(c)
    ensures ChatOk(c.(t := c.t.(contacts := ClearUnread(c.t.contacts, uid, room, now))))
  {
    var t := c.t.(contacts := ClearUnread(c.t.contacts, uid, room, now));
    TouchOk(c.t, 0, 0, now, t.contacts);
    TablesKeepOk(c, t);
  }

  lemma FriendRoomKeepsOk(c: Chat, uid: Uid, other: Uid, now: Time)
    requires ChatOk(c) && uid != other
    ensures ChatOk(c.(t := AfterFriendRoom(c.t, uid, other, now)))
  {
    var pair := RoomStores.Canonical(uid, other);
    InsertFriendRoomOk(c.t, pair.uid1, pair.uid2, now);
    RoomsWithoutMessages(c, c.t.nextRoom);
    TablesKeepOk(c, AfterFriendRoom(c.t, uid, other, now));
  }

  lemma GroupKeepsOk(c: Chat, uid: Uid, name: string, avatar: string, now: Time)
    requires ChatOk(c)
    ensures ChatOk(c.(t := InsertGroupRoom(c.t, uid, name, avatar, now)))
  {
    InsertGroupRoomOk(c.t, uid, name, avatar, now);
    RoomsWithoutMessages(c, c.t.nextRoom);
    TablesKeepOk(c, InsertGroupRoom(c.t, uid, name, avatar, now));
  }

  lemma AddKeepsOk(c: Chat, g: RoomId, u: Uid)
    requires ChatOk(c) && g in c.t.groups && (g, u) !in c.t.members
    ensures ChatOk(c.(t := InsertMember(c.t, g, u, Member)))
  {
    InsertMemberOk(c.t, g, u);
    TablesKeepOk(c, InsertMember(c.t, g, u, Member));
  }

  lemma DeleteKeepsOk(c: Chat, g: RoomId, u: Uid)
    requires ChatOk(c)
    ensures ChatOk(c.(t := DeleteMember(c.t, g, u)))
  {
    DeleteMemberOk(c.t, g, u);
    TablesKeepOk(c, DeleteMember(c.t, g, u));
  }

  lemma RoleKeepsOk(c: Chat, g: RoomId, u: Uid, role: Role)
    requires ChatOk(c) && role != Owner
    ensures ChatOk(c.(t := UpdateRole(c.t, g, u, role)))
  {
    UpdateRoleOk(c.t, g, u, role);
    TablesKeepOk(c, UpdateRole(c.t, g, u, role));
  }

  lemma SkipKeepsOk(c: Chat, rooms: nat, messages: nat)
    requires ChatOk(c)
    ensures ChatOk(c.(t := SkipRoomIds(c.t, rooms), m := SkipMessageIds(c.m, messages)))
  {
    SkipRoomIdsOk(c.t, rooms);
    SkipKeepsLast(c.t, c.m, rooms, messages);
  }

  lemma InviteKeepsOk(c: Chat, uid: Uid, room: RoomId, mode: string)
    requires ChatOk(c)
    ensures ChatOk(AfterInvite(c, uid, room, mode))
  {}

  lemma ConnectKeepsOk(c: Chat, op: Op)
    requires ChatOk(c) && Admissible(c, op) && op.Connect?
    ensures ChatOk(Step(c, op))
  {}

  lemma DisconnectKeepsOk(c: Chat, op: Op)
    requires ChatOk(c) && op.Disconnect?
    ensures ChatOk(Step(c, op))
  {}

  predicate IsRoomOp(op: Op) {
    || op.MarkRead? || op.CreateFriendRoom? || op.CreateGroup?
    || op.AddMember? || op.RemoveMember? || op.ExitGroup? || op.SetAdmin?
  }

  lemma RoomStepKeepsOk(c: Chat, op: Op)
    requires ChatOk(c) && IsRoomOp(op)
    ensures ChatOk(Step(c, op))
  {
    if Reply(c, op) == Ok {
      match op
      case MarkRead(uid, room, now) => MarkReadKeepsOk(c, uid, room, now);
      case CreateFriendRoom(uid, other, now) => FriendRoomKeepsOk(c, uid, other, now);
      case CreateGroup(uid, name, avatar, now) => GroupKeepsOk(c, uid, name, avatar, now);
      case AddMember(uid, g, target) => AddKeepsOk(c, g, target);
      case RemoveMember(uid, g, target) => DeleteKeepsOk(c, g, target);
      case ExitGroup(uid, g) => DeleteKeepsOk(c, g, uid);
      case SetAdmin(uid, g, target, isAdmin) => RoleKeepsOk(c, g, target, if isAdmin then Admin else Member);
    }
  }

  lemma StepKeepsOk(c: Chat, op: Op)
    requires ChatOk(c) && Admissible(c, op)
    ensures ChatOk(Step(c, op))
  {
    if op.Connect? { ConnectKeepsOk(c, op); }
    else if op.Disconnect? { DisconnectKeepsOk(c, op); }
    else if IsRoomOp(op) { RoomStepKeepsOk(c, op); }
    else if Reply(c, op) == Ok {
      match op
      case Send(uid, req, at) => SendKeepsOk(c, uid, req, at);
      case Recall(uid, id, at) => RecallKeepsOk(c, id);
      case Invite(uid, room, mode) => InviteKeepsOk(c, uid, room, mode);
      case SkipIds(rooms, messages) => SkipKeepsOk(c, rooms, messages);
    }
  }

  lemma {:induction false} RunKeepsOk(c: Chat, ops: seq<Op>)
    requires ChatOk(c) && RunAdmissible(c, ops)
    ensures ChatOk(Run(c, ops))
  {
    if ops != [] {
      var n := |ops| - 1;
      RunKeepsOk(c, ops[..n]);
      StepKeepsOk(Run(c, ops[..n]), ops[n]);
    }
  }

  lemma RunNext(c: Chat, ops: seq<Op>, k: nat)
    requires k < |ops|
    ensures Run(c, ops[..k + 1]) == Step(Run(c, ops[..k]), ops[k])
  {
    assert ops[..k + 1][..k] == ops[..k];
  }

  // Every request of the run is admissible when it comes.
  lemma {:induction false} PrefixAdmissible(c: Chat, ops: seq<Op>, n: nat)
    requires RunAdmissible(c, ops) && n <= |ops|
    ensures RunAdmissible(c, ops[..n]) && (n < |ops| ==> Admissible(Run(c, ops[..n]), ops[n]))
    decreases |ops|
  {
    if n < |ops| {
      var m := |ops| - 1;
      if n < m {
        PrefixAdmissible(c, ops[..m], n);
        assert ops[..m][..n] == ops[..n] && ops[..m][n] == ops[n];
      }
    } else {
      assert ops[..n] == ops;
    }
  }
}
