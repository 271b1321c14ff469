/** Requests that overlap. Each request is a process; each store or cache call is one atomic
    step; steps of different requests interleave freely and every call may fail. The code
    locations are those of internal/message/handler.go and internal/room/handler.go. */
module Interleaved {
  import opened Domain
  import opened Tables
  import opened MessageLog
  import opened MemberCaches
  import RoomStores

  type Pid = nat

  // Seconds a cache entry lives, and seconds a request's context lives.
  datatype Config = Config(ttl: nat, deadline: nat)

  // Requests that have passed the checks made before any call.
  datatype Request =
    | SendReq(uid: Uid, room: RoomId, content: string)
    | RecallReq(uid: Uid, msg: MsgId)
    | MarkReadReq(uid: Uid, room: RoomId)
    | FriendReq(uid: Uid, other: Uid)
    | GroupReq(uid: Uid, name: string, avatar: string)
    | AddReq(uid: Uid, group: RoomId, target: Uid)
    | RemoveReq(uid: Uid, group: RoomId, target: Uid)
    | ExitReq(uid: Uid, group: RoomId)
    | AdminReq(uid: Uid, group: RoomId, target: Uid, isAdmin: bool)

  predicate Accepted(req: Request) {
    match req
    case FriendReq(uid, other) => other != 0 && other != uid
    case GroupReq(uid, name, avatar) => name != ""
    case AddReq(uid, group, target) => target != 0
    case SendReq(uid, room, content) => room != 0 && content != ""
    case _ => true
  }

  // The room row as a handler copied it; neither field ever changes.
  datatype Dest = Dest(room: RoomId, kind: RoomKind, hot: bool)

  // Why a recipient list is wanted.
  datatype Use = ForCheck | ForPush(id: MsgId) | ForTally | ForRecall

  // The call a process makes next, with the locals it still needs.
  datatype Pc =
    | FetchRoom
    | CacheGet(use: Use, dest: Dest)
    | ListRows(use: Use, dest: Dest)
    | CacheSet(use: Use, dest: Dest, uids: seq<Uid>, at: Time)
    | GetFriend(use: Use, dest: Dest)
    | Resolved(use: Use, dest: Dest, uids: seq<Uid>, at: Time)
    | InsertHot(dest: Dest)
    | PushAll(dest: Dest, id: MsgId)
    | TouchRow(dest: Dest, id: MsgId)
    | ResetRow(dest: Dest)
    | FetchMessage
    | FetchRole(msg: Message)
    | MarkRow(msg: Message)
    | FetchRoomOf(msg: Message)
    | FindPair
    | FetchActor
    | FetchTarget(actor: Role)
    | Write
    | Invalidate
    | Done

  datatype Proc = Proc(req: Request, start: Time, pc: Pc)

  datatype State = State(now: Time, t: Tables, m: MessageTable, cache: map<RoomId, Entry>, procs: map<Pid, Proc>)

  datatype Action =
    | Tick(seconds: nat)
    | SkipIds(rooms: nat, messages: nat)
    | Arrive(pid: Pid, req: Request)
    | Call(pid: Pid, ok: bool)

  function FirstCall(req: Request): Pc {
    match req
    case SendReq(_, _, _) => FetchRoom
    case RecallReq(_, _) => FetchMessage
    case MarkReadReq(_, _) => Write
    case FriendReq(_, _) => FindPair
    case GroupReq(_, _, _) => Write
    case _ => FetchActor
  }

  // groupMemberUIDs for groups, GetFriendByRoomID otherwise.
  function Lookup(use: Use, dest: Dest): Pc {
    if dest.kind.GroupRoom? then CacheGet(use, dest) else GetFriend(use, dest)
  }

  // Where a request goes on when its recipients cannot be found out.
  function Unresolved(use: Use, dest: Dest): Pc {
    match use
    case ForPush(id) => TouchRow(dest, id)
    case _ => Done
  }

  function DestOf(t: Tables, r: RoomId): Dest
    requires r in t.rooms
  {
    Dest(r, t.rooms[r].kind, t.rooms[r].hot)
  }

  // The one atomic thing a call does to the shared state. A failed call, a query and a push
  // to connections leave it alone.
  datatype Stmt =
    | Nothing
    | AppendMessage(msg: Message)
    | DeleteMessage(id: MsgId)
    | TouchRoom(room: RoomId, id: MsgId)
    | RaiseUnread(room: RoomId, uids: seq<Uid>)
    | ResetUnread(uid: Uid, room: RoomId)
    | CreateGroup(owner: Uid, name: string, avatar: string)
    | CreatePair(pair: Friend)
    | AddRow(group: RoomId, uid: Uid)
    | RemoveRow(group: RoomId, uid: Uid)
    | RoleRow(group: RoomId, uid: Uid, role: Role)
    | Fill(group: RoomId, uids: seq<Uid>)
    | Drop(group: RoomId)

  function TablesAfter(t: Tables, now: Time, stmt: Stmt): Tables {
    match stmt
    case TouchRoom(r, id) => Touch(t, r, id, now)
    case RaiseUnread(r, uids) => t.(contacts := BumpRows(t.contacts, r, uids, now))
    case ResetUnread(u, r) => t.(contacts := ClearUnread(t.contacts, u, r, now))
    case CreateGroup(owner, name, avatar) => InsertGroupRoom(t, owner, name, avatar, now)
    case CreatePair(pair) => InsertFriendRoom(t, pair.uid1, pair.uid2, now)
    case AddRow(g, u) => if (g, u) in t.members then t else InsertMember(t, g, u, Member)
    case RemoveRow(g, u) => DeleteMember(t, g, u)
    case RoleRow(g, u, role) => UpdateRole(t, g, u, role)
    case _ => t
  }

  function LogAfter(m: MessageTable, now: Time, stmt: Stmt): MessageTable {
    match stmt
    case AppendMessage(msg) => InsertMessage(m, msg, now)
    case DeleteMessage(id) => MarkDeleted(m, id)
    case _ => m
  }

  function CacheAfter(cfg: Config, cache: map<RoomId, Entry>, now: Time, stmt: Stmt): map<RoomId, Entry> {
    match stmt
    case Fill(g, uids) => cache[g := Entry(uids, now + cfg.ttl)]
    case Drop(g) => cache - {g}
    case _ => cache
  }

  // A call's statement and the caller's next call.
  datatype Move = Move(stmt: Stmt, pc: Pc)

  function NewText(s: State, req: Request, dest: Dest): Stmt
    requires req.SendReq?
  {
    AppendMessage(Message(s.m.nextId, dest.room, req.uid, req.content, TYPE_TEXT, 0, false, None, s.now))
  }

  function Except(uids: seq<Uid>, u: Uid): (r: seq<Uid>)
    ensures forall x :: x in r <==> x in uids && x != u
  {
    if uids == [] then []
    else
      var n := |uids| - 1;
      assert uids == uids[..n] + [uids[n]];
      Except(uids[..n], u) + if uids[n] == u then [] else [uids[n]]
  }

  // The calls of send and recall.
  function MessageMove(s: State, p: Proc, ok: bool): Move {
    match p.pc
    case FetchRoom =>
      if !ok || !p.req.SendReq? || p.req.room !in s.t.rooms then Move(Nothing, Done)
      else
        var dest := DestOf(s.t, p.req.room);
        Move(Nothing, if dest.hot then InsertHot(dest) else Lookup(ForCheck, dest))
    case CacheGet(use, dest) =>
      if ok && dest.room in s.cache && s.now < s.cache[dest.room].expiry
      then Move(Nothing, Resolved(use, dest, s.cache[dest.room].uids, s.now))
      else Move(Nothing, ListRows(use, dest))
    case ListRows(use, dest) =>
      Move(Nothing, if ok then CacheSet(use, dest, UidsOf(Listing(s.t, dest.room)), s.now) else Unresolved(use, dest))
    case CacheSet(use, dest, uids, at) =>
      Move(if ok then Fill(dest.room, uids) else Nothing, Resolved(use, dest, uids, at))
    case GetFriend(use, dest) =>
      Move(Nothing,
           if ok && dest.room in s.t.friends
           then Resolved(use, dest, [s.t.friends[dest.room].uid1, s.t.friends[dest.room].uid2], s.now)
           else Unresolved(use, dest))
    case Resolved(use, dest, uids, at) =>
      (match use
       case ForCheck =>
         if !ok || !p.req.SendReq? || p.req.uid !in uids then Move(Nothing, Done)
         else Move(NewText(s, p.req, dest), Lookup(ForPush(s.m.nextId), dest))
       case ForPush(id) => Move(Nothing, TouchRow(dest, id))
       case ForTally => Move(if ok then RaiseUnread(dest.room, Except(uids, p.req.uid)) else Nothing, ResetRow(dest))
       case ForRecall => Move(Nothing, Done))
    case InsertHot(dest) =>
      if !ok || !p.req.SendReq? then Move(Nothing, Done)
      else Move(NewText(s, p.req, dest), PushAll(dest, s.m.nextId))
    case PushAll(dest, id) => Move(Nothing, TouchRow(dest, id))
    case TouchRow(dest, id) =>
      Move(if ok then TouchRoom(dest.room, id) else Nothing, if dest.hot then Done else Lookup(ForTally, dest))
    case ResetRow(dest) => Move(if ok then ResetUnread(p.req.uid, dest.room) else Nothing, Done)
    case FetchMessage =>
      Move(Nothing, if ok && p.req.RecallReq? && p.req.msg in s.m.rows then FetchRole(s.m.rows[p.req.msg]) else Done)
    case FetchRole(msg) =>
      var role := if ok && (msg.room, p.req.uid) in s.t.members
          then s.t.members[(msg.room, p.req.uid)].role else Member;
      Move(Nothing, if CanRecall(msg.from, p.req.uid, role, msg.created, s.now) then MarkRow(msg) else Done)
    case MarkRow(msg) => if ok then Move(DeleteMessage(msg.id), FetchRoomOf(msg)) else Move(Nothing, Done)
    case FetchRoomOf(msg) =>
      Move(Nothing,
           if ok && msg.room in s.t.rooms && !s.t.rooms[msg.room].hot
           then Lookup(ForRecall, DestOf(s.t, msg.room)) else Done)
    case _ => Move(Nothing, Done)
  }

  // The first call of a guarded membership request: who is asking?
  function ActorMove(s: State, req: Request): Pc {
    match req
    case AddReq(uid, g, target) => if (g, uid) in s.t.members then Write else Done
    case RemoveReq(uid, g, target) => if (g, uid) in s.t.members then FetchTarget(s.t.members[(g, uid)].role) else Done
    case ExitReq(uid, g) => if (g, uid) in s.t.members && s.t.members[(g, uid)].role != Owner then Write else Done
    case AdminReq(uid, g, target, isAdmin) =>
      if (g, uid) in s.t.members && CanSetAdmin(s.t.members[(g, uid)].role) then Write else Done
    case _ => Done
  }

  // The call that changes the tables.
  function WriteMove(s: State, req: Request): Move {
    match req
    case MarkReadReq(uid, room) => Move(ResetUnread(uid, room), Done)
    case FriendReq(uid, other) => Move(CreatePair(RoomStores.Canonical(uid, other)), Done)
    case GroupReq(uid, name, avatar) => Move(CreateGroup(uid, name, avatar), Done)
    case AddReq(uid, g, target) => Move(AddRow(g, target), if (g, target) in s.t.members then Done else Invalidate)
    case RemoveReq(uid, g, target) => Move(RemoveRow(g, target), Invalidate)
    case ExitReq(uid, g) => Move(RemoveRow(g, uid), Invalidate)
    case AdminReq(uid, g, target, isAdmin) => Move(RoleRow(g, target, if isAdmin then Admin else Member), Done)
    case _ => Move(Nothing, Done)
  }

  // The calls of the room handlers.
  function RoomMove(s: State, p: Proc, ok: bool): Move {
    if !ok then Move(Nothing, Done) else
    match p.pc
    case FindPair =>
      Move(Nothing,
           if p.req.FriendReq? && RoomStores.Canonical(p.req.uid, p.req.other) !in s.t.friends.Values
           then Write else Done)
    case FetchActor => Move(Nothing, ActorMove(s, p.req))
    case FetchTarget(actor) =>
      Move(Nothing,
           if p.req.RemoveReq? && (p.req.group, p.req.target) in s.t.members
              && CanRemoveMember(actor, s.t.members[(p.req.group, p.req.target)].role)
           then Write else Done)
    case Write => WriteMove(s, p.req)
    case Invalidate =>
      Move(if p.req.AddReq? || p.req.RemoveReq? || p.req.ExitReq? then Drop(p.req.group) else Nothing, Done)
    case _ => Move(Nothing, Done)
  }

  predicate IsRoomCall(pc: Pc) {
    pc.FindPair? || pc.FetchActor? || pc.FetchTarget? || pc.Write? || pc.Invalidate?
  }

  function MoveOf(s: State, p: Proc, ok: bool): Move {
    if IsRoomCall(p.pc) then RoomMove(s, p, ok) else MessageMove(s, p, ok)
  }

  // A call takes effect no later than its request's deadline.
  predicate Enabled(cfg: Config, s: State, a: Action) {
    match a
    case Tick(seconds) => true
    case SkipIds(rooms, messages) => true
    case Arrive(pid, req) => pid !in s.procs && Accepted(req)
    case Call(pid, ok) =>
      pid in s.procs && !s.procs[pid].pc.Done? && (ok ==> s.now <= s.procs[pid].start + cfg.deadline)
  }

  function Apply(cfg: Config, s: State, a: Action): State
    requires Enabled(cfg, s, a)
  {
    match a
    case Tick(seconds) => s.(now := s.now + seconds)
    case SkipIds(rooms, messages) => s.(t := SkipRoomIds(s.t, rooms), m := SkipMessageIds(s.m, messages))
    case Arrive(pid, req) => s.(procs := s.procs[pid := Proc(req, s.now, FirstCall(req))])
    case Call(pid, ok) =>
      var p := s.procs[pid];
      var mv := MoveOf(s, p, ok);
      State(s.now, TablesAfter(s.t, s.now, mv.stmt), LogAfter(s.m, s.now, mv.stmt),
            CacheAfter(cfg, s.cache, s.now, mv.stmt), s.procs[pid := p.(pc := mv.pc)])
  }

  // Any sound tables, no request in flight, and a cache that tells the truth.
  ghost predicate Init(cfg: Config, s: State) {
    && s.procs == map[]
    && WellFormed(s.t) && LogOk(s.m) && LastMessagesExist(s.t, s.m)
    && Coherent(s.cache, s.t)
    && forall g :: g in s.cache ==> s.cache[g].expiry <= s.now + cfg.ttl
  }

  // Messages belong to rooms; a room points at one of its own messages, or at none.
  ghost predicate LastMessagesExist(t: Tables, m: MessageTable) {
    && (forall id :: id in m.rows ==> m.rows[id].room in t.rooms)
    && (forall r :: r in t.rooms ==> t.rooms[r].lastMsgId == 0 || InRoom(m, t.rooms[r].lastMsgId, r))
  }

  ghost predicate InRoom(m: MessageTable, id: MsgId, r: RoomId) {
    id in m.rows && m.rows[id].room == r
  }

  // b[0], b[1], ... with acts[i] leading from b[i] to b[i + 1].
  ghost predicate Behaviour(cfg: Config, b: seq<State>, acts: seq<Action>) {
    && |b| == |acts| + 1
    && Init(cfg, b[0])
    && forall i :: 0 <= i < |acts| ==> Leads(cfg, b[i], acts[i], b[i + 1])
  }

  ghost predicate Leads(cfg: Config, s: State, a: Action, s': State) {
    Enabled(cfg, s, a) && s' == Apply(cfg, s, a)
  }

  // ----- Runs from any state -----

  // acts lead from s to e, through the states b.
  ghost predicate Trace(cfg: Config, b: seq<State>, acts: seq<Action>, s: State, e: State) {
    && |b| == |acts| + 1 && b[0] == s && b[|acts|] == e
    && forall i :: 0 <= i < |acts| ==> Leads(cfg, b[i], acts[i], b[i + 1])
  }

  ghost predicate NoneFails(acts: seq<Action>) {
    forall i :: 0 <= i < |acts| ==> acts[i].Call? ==> acts[i].ok
  }

  // Some run leads from s to e in which every call succeeds.
  ghost predicate CanReach(cfg: Config, s: State, e: State) {
    exists b, acts :: Trace(cfg, b, acts, s, e) && NoneFails(acts)
  }

  lemma TracesJoin(cfg: Config, b: seq<State>, acts: seq<Action>, b': seq<State>, acts': seq<Action>, s: State,
                   mid: State, e: State)
    requires Trace(cfg, b, acts, s, mid) && Trace(cfg, b', acts', mid, e)
    ensures Trace(cfg, b + b'[1..], acts + acts', s, e)
  {
    var all, steps := b + b'[1..], acts + acts';
    forall i | 0 <= i < |steps| ensures Leads(cfg, all[i], steps[i], all[i + 1]) {
      if i < |acts| {
        assert Leads(cfg, b[i], acts[i], b[i + 1]);
      } else {
        var k := i - |acts|;
        assert Leads(cfg, b'[k], acts'[k], b'[k + 1]);
      }
    }
  }

  lemma ReachesOn(cfg: Config, s: State, mid: State, e: State)
    requires CanReach(cfg, s, mid) && CanReach(cfg, mid, e)
    ensures CanReach(cfg, s, e)
  {
    var b, acts :| Trace(cfg, b, acts, s, mid) && NoneFails(acts);
    var b', acts' :| Trace(cfg, b', acts', mid, e) && NoneFails(acts');
    TracesJoin(cfg, b, acts, b', acts', s, mid, e);
    assert NoneFails(acts + acts');
  }

  lemma OneStep(cfg: Config, s: State, a: Action) returns (e: State)
    requires Enabled(cfg, s, a) && (a.Call? ==> a.ok)
    ensures e == Apply(cfg, s, a) && CanReach(cfg, s, e)
  {
    e := Apply(cfg, s, a);
    assert Trace(cfg, [s, e], [a], s, e);
    assert NoneFails([a]);
  }

  // Some behaviour that starts at s and ends at e has no failing call.
  ghost predicate Happens(cfg: Config, s: State, e: State) {
    exists b, acts :: Behaviour(cfg, b, acts) && NoneFails(acts) && b[0] == s && b[|acts|] == e
  }

  // What an initial state can reach is what behaviours show.
  lemma ReachableHappens(cfg: Config, s: State, e: State)
    requires Init(cfg, s)
    ensures CanReach(cfg, s, e) <==> Happens(cfg, s, e)
  {
    if CanReach(cfg, s, e) {
      var b, acts :| Trace(cfg, b, acts, s, e) && NoneFails(acts);
      assert Behaviour(cfg, b, acts);
    }
    if Happens(cfg, s, e) {
      var b, acts :| Behaviour(cfg, b, acts) && NoneFails(acts) && b[0] == s && b[|acts|] == e;
      assert Trace(cfg, b, acts, s, e);
    }
  }
}
