/** What every step of every interleaving keeps: sound tables, last-message ids that are real,
    and the facts a request relies on between reading something and acting on it. */
module InterleavedSafety {
  import opened Domain
  import opened Tables
  import opened MessageLog
  import opened Interleaved

  ghost predicate SharedOk(t: Tables, m: MessageTable) {
    WellFormed(t) && LogOk(m) && LastMessagesExist(t, m)
  }

  // Rooms, groups, pairs and messages stay; nobody becomes owner of an existing group.
  ghost predicate Later(t: Tables, m: MessageTable, t': Tables, m': MessageTable) {
    && (forall r :: r in t.rooms ==> r in t'.rooms && DestOf(t', r) == DestOf(t, r))
    && t.groups.Keys <= t'.groups.Keys
    && (forall r :: r in t.friends ==> r in t'.friends && t'.friends[r] == t.friends[r])
    && (forall id :: id in m.rows ==> id in m'.rows && m'.rows[id].room == m.rows[id].room)
    && NoNewOwners(t, t')
  }

  ghost predicate NoNewOwners(t: Tables, t': Tables) {
    forall g, u :: g in t.groups && IsOwner(t', g, u) ==> IsOwner(t, g, u)
  }

  ghost predicate DestOk(t: Tables, dest: Dest) {
    dest.room in t.rooms && DestOf(t, dest.room) == dest
  }

  ghost predicate UseOk(m: MessageTable, req: Request, use: Use, dest: Dest) {
    match use
    case ForCheck => req.SendReq? && dest.room == req.room
    case ForPush(id) => InRoom(m, id, dest.room)
    case _ => true
  }

  // What a process may rely on when it makes its next call, whatever ran in between.
  ghost predicate LocalOk(t: Tables, m: MessageTable, p: Proc) {
    && Accepted(p.req)
    && match p.pc
       case CacheGet(use, dest) => DestOk(t, dest) && !dest.hot && dest.kind.GroupRoom? && UseOk(m, p.req, use, dest)
       case ListRows(use, dest) => DestOk(t, dest) && !dest.hot && dest.kind.GroupRoom? && UseOk(m, p.req, use, dest)
       case CacheSet(use, dest, _, _) => DestOk(t, dest) && !dest.hot && dest.kind.GroupRoom?
           && UseOk(m, p.req, use, dest)
       case GetFriend(use, dest) => DestOk(t, dest) && !dest.hot && dest.kind.FriendRoom? && UseOk(m, p.req, use, dest)
       case Resolved(use, dest, _, _) => DestOk(t, dest) && !dest.hot && UseOk(m, p.req, use, dest)
       case InsertHot(dest) => DestOk(t, dest) && dest.hot && p.req.SendReq? && dest.room == p.req.room
       case PushAll(dest, id) => DestOk(t, dest) && InRoom(m, id, dest.room)
       case TouchRow(dest, id) => DestOk(t, dest) && InRoom(m, id, dest.room)
       case FetchTarget(_) => p.req.RemoveReq? && p.req.group in t.groups
       case Write => WriteOk(t, p.req)
       case _ => true
  }

  // What the guard checked earlier still says about the owner now: a removal does not aim at
  // the owner, and a role change comes from the owner if there still is one.
  ghost predicate WriteOk(t: Tables, req: Request) {
    match req
    case AddReq(_, g, _) => g in t.groups
    case RemoveReq(_, g, target) => g in t.groups && !IsOwner(t, g, target)
    case ExitReq(uid, g) => g in t.groups && !IsOwner(t, g, uid)
    case AdminReq(uid, g, _, _) => g in t.groups && forall u :: IsOwner(t, g, u) ==> u == uid
    case _ => true
  }

  ghost predicate StateOk(s: State) {
    && SharedOk(s.t, s.m)
    && forall pid :: pid in s.procs ==> LocalOk(s.t, s.m, s.procs[pid])
  }

  // ----- Statements -----

  // What a statement needs to be harmless.
  ghost predicate StmtOk(t: Tables, m: MessageTable, stmt: Stmt) {
    match stmt
    case AppendMessage(msg) => msg.room in t.rooms
    case TouchRoom(r, id) => InRoom(m, id, r)
    case CreatePair(pair) => pair.uid1 < pair.uid2
    case AddRow(g, u) => g in t.groups
    case RemoveRow(g, u) => g in t.groups && !IsOwner(t, g, u)
    case RoleRow(g, u, role) => role != Owner
    case _ => true
  }

  // Last-message ids stay real when rooms keep theirs, or start at none.
  lemma LastMessagesKept(t: Tables, m: MessageTable, t': Tables, m': MessageTable)
    requires LastMessagesExist(t, m)
    requires forall id :: id in m.rows ==> id in m'.rows && m'.rows[id].room == m.rows[id].room
    requires forall id :: id in m'.rows && id !in m.rows ==> m'.rows[id].room in t.rooms
    requires forall r :: r in t.rooms ==> r in t'.rooms
    requires forall r :: r in t'.rooms ==>
               || (r in t.rooms && t'.rooms[r].lastMsgId == t.rooms[r].lastMsgId)
               || t'.rooms[r].lastMsgId == 0 || InRoom(m', t'.rooms[r].lastMsgId, r)
    ensures LastMessagesExist(t', m')
  {
    forall r | r in t'.rooms ensures t'.rooms[r].lastMsgId == 0 || InRoom(m', t'.rooms[r].lastMsgId, r) {
      if r in t.rooms { assert t.rooms[r].lastMsgId == 0 || InRoom(m, t.rooms[r].lastMsgId, r); }
    }
    forall id | id in m'.rows ensures m'.rows[id].room in t'.rooms {
      assert id in m.rows ==> m.rows[id].room in t.rooms;
    }
  }

  lemma LogStmtSafe(t: Tables, m: MessageTable, now: Time, stmt: Stmt)
    requires SharedOk(t, m) && StmtOk(t, m, stmt)
    ensures SharedOk(t, LogAfter(m, now, stmt)) && Later(t, m, t, LogAfter(m, now, stmt))
  {
    LastMessagesKept(t, m, t, LogAfter(m, now, stmt));
  }

  // Owners of existing groups are owners already before the statement.
  lemma OwnersOnlyLeave(t: Tables, m: MessageTable, now: Time, stmt: Stmt)
    requires SharedOk(t, m) && StmtOk(t, m, stmt)
    ensures WellFormed(TablesAfter(t, now, stmt)) && NoNewOwners(t, TablesAfter(t, now, stmt))
  {
    if stmt.CreateGroup? || stmt.AddRow? { NewRowsSafe(t, m, now, stmt); }
    else if stmt.RemoveRow? || stmt.RoleRow? { OldRowsSafe(t, m, now, stmt); }
    else { MembersStay(t, m, now, stmt); }
  }

  lemma NewRowsSafe(t: Tables, m: MessageTable, now: Time, stmt: Stmt)
    requires SharedOk(t, m) && StmtOk(t, m, stmt) && (stmt.CreateGroup? || stmt.AddRow?)
    ensures WellFormed(TablesAfter(t, now, stmt)) && NoNewOwners(t, TablesAfter(t, now, stmt))
  {
    match stmt
    case CreateGroup(owner, name, avatar) => NewGroupSafe(t, owner, name, avatar, now);
    case AddRow(g, u) => if (g, u) !in t.members { NewMemberSafe(t, g, u); }
  }

  lemma NewGroupSafe(t: Tables, owner: Uid, name: string, avatar: string, now: Time)
    requires WellFormed(t)
    ensures var t' := InsertGroupRoom(t, owner, name, avatar, now);
            WellFormed(t') && NoNewOwners(t, t')
  {
    InsertGroupRoomOk(t, owner, name, avatar, now);
    assert t.nextRoom !in t.groups;
  }

  lemma NewMemberSafe(t: Tables, g: RoomId, u: Uid)
    requires WellFormed(t) && g in t.groups && (g, u) !in t.members
    ensures WellFormed(InsertMember(t, g, u, Member)) && NoNewOwners(t, InsertMember(t, g, u, Member))
  {
    InsertMemberOk(t, g, u);
  }

  lemma OldRowsSafe(t: Tables, m: MessageTable, now: Time, stmt: Stmt)
    requires SharedOk(t, m) && StmtOk(t, m, stmt) && (stmt.RemoveRow? || stmt.RoleRow?)
    ensures WellFormed(TablesAfter(t, now, stmt)) && NoNewOwners(t, TablesAfter(t, now, stmt))
  {
    match stmt
    case RemoveRow(g, u) => DeleteMemberOk(t, g, u);
    case RoleRow(g, u, role) => UpdateRoleOk(t, g, u, role);
  }

  lemma MembersStay(t: Tables, m: MessageTable, now: Time, stmt: Stmt)
    requires SharedOk(t, m) && StmtOk(t, m, stmt)
    requires !stmt.CreateGroup? && !stmt.AddRow? && !stmt.RemoveRow? && !stmt.RoleRow?
    ensures WellFormed(TablesAfter(t, now, stmt)) && TablesAfter(t, now, stmt).members == t.members
  {
    match stmt
    case TouchRoom(r, id) =>
      TouchOk(t, r, id, now, t.contacts);
      assert Touch(t, r, id, now) == Touch(t, r, id, now).(contacts := t.contacts);
    case RaiseUnread(r, uids) => ContactsOk(t, BumpRows(t.contacts, r, uids, now));
    case ResetUnread(u, r) => ContactsOk(t, ClearUnread(t.contacts, u, r, now));
    case CreatePair(pair) => InsertFriendRoomOk(t, pair.uid1, pair.uid2, now);
    case _ =>
  }

  lemma ContactsOk(t: Tables, cs: map<(Uid, RoomId), Contact>)
    requires WellFormed(t)
    ensures WellFormed(t.(contacts := cs))
  {
    assert forall q, v :: IsOwner(t.(contacts := cs), q, v) <==> IsOwner(t, q, v);
  }

  // Rooms stay what they are; only a touch makes one name a message.
  ghost predicate RoomsKept(t: Tables, t': Tables, stmt: Stmt) {
    && (forall r :: r in t.rooms ==> r in t'.rooms && DestOf(t', r) == DestOf(t, r))
    && t.groups.Keys <= t'.groups.Keys
    && (forall r :: r in t.friends ==> r in t'.friends && t'.friends[r] == t.friends[r])
    && (forall r :: r in t'.rooms ==>
          || (r in t.rooms && t'.rooms[r].lastMsgId == t.rooms[r].lastMsgId)
          || t'.rooms[r].lastMsgId == 0 || stmt == TouchRoom(r, t'.rooms[r].lastMsgId))
  }

  lemma RoomsStay(t: Tables, now: Time, stmt: Stmt)
    requires WellFormed(t)
    ensures RoomsKept(t, TablesAfter(t, now, stmt), stmt)
  {
    if stmt.CreateGroup? || stmt.CreatePair? { RoomsAdded(t, now, stmt); }
    else if !stmt.TouchRoom? { RoomsUntouched(t, now, stmt); }
  }

  lemma RoomsAdded(t: Tables, now: Time, stmt: Stmt)
    requires DetailRows(t) && (stmt.CreateGroup? || stmt.CreatePair?)
    ensures RoomsKept(t, TablesAfter(t, now, stmt), stmt)
  {
    assert t.nextRoom !in t.rooms && t.nextRoom !in t.friends;
  }

  lemma RoomsUntouched(t: Tables, now: Time, stmt: Stmt)
    requires !stmt.CreateGroup? && !stmt.CreatePair? && !stmt.TouchRoom?
    ensures var t' := TablesAfter(t, now, stmt);
            t'.rooms == t.rooms && t'.groups == t.groups && t'.friends == t.friends
  {}

  lemma TableStmtSafe(t: Tables, m: MessageTable, now: Time, stmt: Stmt)
    requires SharedOk(t, m) && StmtOk(t, m, stmt)
    ensures SharedOk(TablesAfter(t, now, stmt), m) && Later(t, m, TablesAfter(t, now, stmt), m)
  {
    OwnersOnlyLeave(t, m, now, stmt);
    RoomsStay(t, now, stmt);
    LastMessagesKept(t, m, TablesAfter(t, now, stmt), m);
  }

  ghost predicate TouchesLog(stmt: Stmt) {
    stmt.AppendMessage? || stmt.DeleteMessage?
  }

  lemma StmtSafe(t: Tables, m: MessageTable, now: Time, stmt: Stmt)
    requires SharedOk(t, m) && StmtOk(t, m, stmt)
    ensures SharedOk(TablesAfter(t, now, stmt), LogAfter(m, now, stmt))
    ensures Later(t, m, TablesAfter(t, now, stmt), LogAfter(m, now, stmt))
    ensures Later(t, LogAfter(m, now, stmt), TablesAfter(t, now, stmt), LogAfter(m, now, stmt))
  {
    if TouchesLog(stmt) { LogStmtSafe(t, m, now, stmt); } else { TableStmtSafe(t, m, now, stmt); }
  }

  // ----- Control -----

  lemma LocalKept(t: Tables, m: MessageTable, t': Tables, m': MessageTable, p: Proc)
    requires LocalOk(t, m, p) && Later(t, m, t', m')
    ensures LocalOk(t', m', p)
  {}

  // Every call issues a harmless statement, and leaves its process with what it needs next.
  lemma RoomMoveSafe(s: State, p: Proc, ok: bool)
    requires SharedOk(s.t, s.m) && LocalOk(s.t, s.m, p) && IsRoomCall(p.pc)
    ensures var mv := RoomMove(s, p, ok);
            StmtOk(s.t, s.m, mv.stmt) && !TouchesLog(mv.stmt) && LocalOk(s.t, s.m, p.(pc := mv.pc))
  {
    if p.req.AdminReq? && RoomMove(s, p, ok).pc.Write? {
      assert IsOwner(s.t, p.req.group, p.req.uid);
    }
  }

  predicate IsLookup(pc: Pc) {
    pc.CacheGet? || pc.ListRows? || pc.CacheSet? || pc.GetFriend?
  }

  lemma LookupMoveSafe(s: State, p: Proc, ok: bool)
    requires SharedOk(s.t, s.m) && LocalOk(s.t, s.m, p) && IsLookup(p.pc)
    ensures var mv := MessageMove(s, p, ok);
            StmtOk(s.t, s.m, mv.stmt) && !TouchesLog(mv.stmt) && LocalOk(s.t, s.m, p.(pc := mv.pc))
  {}

  lemma MessageMoveSafe(s: State, p: Proc, ok: bool)
    requires SharedOk(s.t, s.m) && LocalOk(s.t, s.m, p) && !IsRoomCall(p.pc) && !IsLookup(p.pc)
    ensures var mv := MessageMove(s, p, ok);
            StmtOk(s.t, s.m, mv.stmt) && LocalOk(s.t, LogAfter(s.m, s.now, mv.stmt), p.(pc := mv.pc))
  {}

  lemma MoveSafe(s: State, p: Proc, ok: bool)
    requires SharedOk(s.t, s.m) && LocalOk(s.t, s.m, p)
    ensures var mv := MoveOf(s, p, ok);
            StmtOk(s.t, s.m, mv.stmt) && LocalOk(s.t, LogAfter(s.m, s.now, mv.stmt), p.(pc := mv.pc))
  {
    if IsRoomCall(p.pc) { RoomMoveSafe(s, p, ok); }
    else if IsLookup(p.pc) { LookupMoveSafe(s, p, ok); }
    else { MessageMoveSafe(s, p, ok); }
  }

  // ----- Every step, every state -----

  lemma SkipSafe(t: Tables, m: MessageTable, rooms: nat, messages: nat)
    requires SharedOk(t, m)
    ensures SharedOk(SkipRoomIds(t, rooms), SkipMessageIds(m, messages))
    ensures Later(t, m, SkipRoomIds(t, rooms), SkipMessageIds(m, messages))
  {
    SkipRoomIdsOk(t, rooms);
    assert forall q, v :: IsOwner(SkipRoomIds(t, rooms), q, v) <==> IsOwner(t, q, v);
    LastMessagesKept(t, m, SkipRoomIds(t, rooms), SkipMessageIds(m, messages));
  }

  lemma StepSafe(cfg: Config, s: State, a: Action)
    requires StateOk(s) && Enabled(cfg, s, a)
    ensures var s' := Apply(cfg, s, a);
            StateOk(s') && Later(s.t, s.m, s'.t, s'.m) && s.now <= s'.now
  {
    var s' := Apply(cfg, s, a);
    if a.SkipIds? {
      SkipSafe(s.t, s.m, a.rooms, a.messages);
      forall pid | pid in s'.procs { LocalKept(s.t, s.m, s'.t, s'.m, s.procs[pid]); }
    } else if a.Call? {
      var p := s.procs[a.pid];
      var mv := MoveOf(s, p, a.ok);
      MoveSafe(s, p, a.ok);
      StmtSafe(s.t, s.m, s.now, mv.stmt);
      forall pid | pid in s'.procs ensures LocalOk(s'.t, s'.m, s'.procs[pid]) {
        if pid != a.pid { LocalKept(s.t, s.m, s'.t, s'.m, s.procs[pid]); }
        else { LocalKept(s.t, s'.m, s'.t, s'.m, p.(pc := mv.pc)); }
      }
    }
  }

  lemma {:induction false} BehaviourSafe(cfg: Config, b: seq<State>, acts: seq<Action>, i: nat)
    requires Behaviour(cfg, b, acts) && i < |b|
    ensures StateOk(b[i])
  {
    if i > 0 {
      BehaviourSafe(cfg, b, acts, i - 1);
      assert Leads(cfg, b[i - 1], acts[i - 1], b[i - 1 + 1]);
      StepSafe(cfg, b[i - 1], acts[i - 1]);
    }
  }

  lemma StepLater(cfg: Config, b: seq<State>, acts: seq<Action>, i: nat)
    requires Behaviour(cfg, b, acts) && i < |acts|
    ensures Later(b[i].t, b[i].m, b[i + 1].t, b[i + 1].m) && b[i].now <= b[i + 1].now
  {
    BehaviourSafe(cfg, b, acts, i);
    assert Leads(cfg, b[i], acts[i], b[i + 1]);
    StepSafe(cfg, b[i], acts[i]);
  }

  lemma {:induction false} BehaviourLater(cfg: Config, b: seq<State>, acts: seq<Action>, i: nat, j: nat)
    requires Behaviour(cfg, b, acts) && i <= j < |b|
    ensures Later(b[i].t, b[i].m, b[j].t, b[j].m) && b[i].now <= b[j].now
    decreases j - i
  {
    if i < j {
      StepLater(cfg, b, acts, i);
      BehaviourLater(cfg, b, acts, i + 1, j);
      LaterTransitive(b[i], b[i + 1], b[j]);
    }
  }

  lemma LaterTransitive(x: State, y: State, z: State)
    requires Later(x.t, x.m, y.t, y.m) && Later(y.t, y.m, z.t, z.m)
    ensures Later(x.t, x.m, z.t, z.m)
  {
    forall g, u | g in x.t.groups && IsOwner(z.t, g, u) ensures IsOwner(x.t, g, u) {
      assert IsOwner(y.t, g, u);
    }
  }
}
