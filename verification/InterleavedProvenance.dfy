/** Where things come from while requests overlap: rooms, messages and admins. */
module InterleavedProvenance {
  import opened Domain
  import opened Tables
  import opened MessageLog
  import opened Interleaved
  import opened InterleavedSafety
  import opened InterleavedPermission
  import opened Requests
  import Provenance

  // ----- Rooms -----

  // What a room's first row says, and whose request wrote it.
  ghost predicate MadeBy(t: Tables, now: Time, r: RoomId, req: Request) {
    && r in t.rooms
    && match req
       case GroupReq(uid, name, avatar) =>
         && t.rooms[r] == Room(GroupRoom, false, now, 0)
         && r in t.groups && t.groups[r] == Group(name, avatar) && HasRole(t, r, uid, Owner)
       case FriendReq(uid, other) =>
         && t.rooms[r] == Room(FriendRoom, false, now, 0)
         && r in t.friends && t.friends[r] == if uid < other then Friend(uid, other) else Friend(other, uid)
       case _ => false
  }

  // Rooms come from requests for them. They begin ordinary, active now and naming no message.
  lemma RoomsAreMade(cfg: Config, s: State, a: Action, r: RoomId)
    requires StateOk(s) && Enabled(cfg, s, a) && r !in s.t.rooms && r in Apply(cfg, s, a).t.rooms
    ensures a.Call? && a.ok && MadeBy(Apply(cfg, s, a).t, s.now, r, s.procs[a.pid].req)
  {
    assert a.Call?;
    var p := s.procs[a.pid];
    WhoMakesRooms(s, p, a.ok);
    RoomStmts(s.t, s.now, MoveOf(s, p, a.ok).stmt, r);
  }

  lemma WhoMakesRooms(s: State, p: Proc, ok: bool)
    requires Accepted(p.req)
    ensures match MoveOf(s, p, ok).stmt
            case CreateGroup(owner, name, avatar) => ok && p.req == GroupReq(owner, name, avatar)
            case CreatePair(pair) =>
              && ok && p.req.FriendReq?
              && pair == if p.req.uid < p.req.other then Friend(p.req.uid, p.req.other)
                         else Friend(p.req.other, p.req.uid)
            case _ => true
  {}

  lemma RoomStmts(t: Tables, now: Time, stmt: Stmt, r: RoomId)
    requires r !in t.rooms && r in TablesAfter(t, now, stmt).rooms
    ensures var t' := TablesAfter(t, now, stmt);
            match stmt
            case CreateGroup(owner, name, avatar) =>
              && t'.rooms[r] == Room(GroupRoom, false, now, 0)
              && r in t'.groups && t'.groups[r] == Group(name, avatar) && HasRole(t', r, owner, Owner)
            case CreatePair(pair) =>
              t'.rooms[r] == Room(FriendRoom, false, now, 0) && r in t'.friends && t'.friends[r] == pair
            case _ => false
  {}

  lemma RoomStays(cfg: Config, s: State, a: Action, r: RoomId)
    requires StateOk(s) && Enabled(cfg, s, a)
    ensures Provenance.SameKind(s.t, Apply(cfg, s, a).t, r)
  {
    StepSafe(cfg, s, a);
    if r in s.t.rooms { assert DestOf(s.t, r) == DestOf(Apply(cfg, s, a).t, r); }
    else if r in Apply(cfg, s, a).t.rooms { RoomsAreMade(cfg, s, a, r); }
  }

  // Rooms stay what they are, and no room is hot that was not so from the start.
  lemma {:induction false} RoomsStay(cfg: Config, b: seq<State>, acts: seq<Action>, i: nat, j: nat, r: RoomId)
    requires Behaviour(cfg, b, acts) && i <= j < |b|
    ensures Provenance.SameKind(b[i].t, b[j].t, r)
    decreases j
  {
    if i < j {
      var k := j - 1;
      RoomsStay(cfg, b, acts, i, k, r);
      BehaviourSafe(cfg, b, acts, k);
      assert Leads(cfg, b[k], acts[k], b[k + 1]);
      RoomStays(cfg, b[k], acts[k], r);
    }
  }

  // ----- Messages -----

  // Whatever appears in the log is what some request in flight asked to be sent.
  lemma MessagesWereSent(cfg: Config, b: seq<State>, acts: seq<Action>, i: nat, id: MsgId)
    requires Behaviour(cfg, b, acts) && i < |acts| && id !in b[i].m.rows && id in b[i + 1].m.rows
    ensures acts[i].Call? && acts[i].ok && ActorOf(b[i], acts[i]).Some?
    ensures match ActorOf(b[i], acts[i]).value
            case SendReq(uid, room, content) =>
              b[i + 1].m.rows[id] == Message(id, room, uid, content, 1, 0, false, None, b[i].now)
            case _ => false
  {
    assert Leads(cfg, b[i], acts[i], b[i + 1]);
    BehaviourSafe(cfg, b, acts, i);
    var p := b[i].procs[acts[i].pid];
    assert LocalOk(b[i].t, b[i].m, p);
    OnlyAppendsAdd(b[i].m, b[i].now, MoveOf(b[i], p, acts[i].ok).stmt, id);
    OnlySendsAppend(b[i], p, acts[i].ok);
  }

  lemma OnlyAppendsAdd(m: MessageTable, now: Time, stmt: Stmt, id: MsgId)
    requires id !in m.rows && id in LogAfter(m, now, stmt).rows
    ensures stmt.AppendMessage? && id == m.nextId
    ensures LogAfter(m, now, stmt).rows[id] == stmt.msg.(id := id, created := now)
  {}

  lemma OnlySendsAppend(s: State, p: Proc, ok: bool)
    requires LocalOk(s.t, s.m, p) && MoveOf(s, p, ok).stmt.AppendMessage?
    ensures ok && p.req.SendReq?
    ensures MoveOf(s, p, ok).stmt.msg
         == Message(s.m.nextId, p.req.room, p.req.uid, p.req.content, 1, 0, false, None, s.now)
  {}

  // ----- Admins -----

  // Step i is the write of a request by a uid that was g's owner within one deadline before,
  // and makes the member u an admin.
  ghost predicate MakesAdmin(cfg: Config, b: seq<State>, acts: seq<Action>, i: nat, g: RoomId, u: Uid)
    requires i < |acts| && i + 1 < |b|
  {
    && ActorOf(b[i], acts[i]).Some? && (g, u) in b[i].t.members
    && match ActorOf(b[i], acts[i]).value
       case AdminReq(actor, group, target, isAdmin) =>
         && group == g && target == u && isAdmin
         && HadRole(b, i, b[i].now - cfg.deadline, g, actor, {Owner})
       case _ => false
  }

  // u has been an admin of g from state i to state k.
  ghost predicate AdminFrom(b: seq<State>, i: nat, k: nat, g: RoomId, u: Uid)
    requires k < |b|
  {
    forall j :: i <= j <= k ==> HasRole(b[j].t, g, u, Admin)
  }

  lemma NewAdminWasMade(cfg: Config, b: seq<State>, acts: seq<Action>, i: nat, g: RoomId, u: Uid)
    requires Behaviour(cfg, b, acts) && i < |acts|
    requires HasRole(b[i + 1].t, g, u, Admin) && !HasRole(b[i].t, g, u, Admin)
    ensures MakesAdmin(cfg, b, acts, i, g, u)
  {
    assert Leads(cfg, b[i], acts[i], b[i + 1]);
    if g !in b[i].t.groups {
      BehaviourSafe(cfg, b, acts, i);
      GroupsBeginWithoutAdmins(cfg, b[i], acts[i], g, u);
    } else {
      RowsChangeByPermission(cfg, b, acts, i, g, u);
    }
  }

  lemma GroupsBeginWithoutAdmins(cfg: Config, s: State, a: Action, g: RoomId, u: Uid)
    requires StateOk(s) && Enabled(cfg, s, a) && g !in s.t.groups
    ensures !HasRole(Apply(cfg, s, a).t, g, u, Admin)
  {
    assert (g, u) !in s.t.members;
    if a.Call? {
      var stmt := MoveOf(s, s.procs[a.pid], a.ok).stmt;
      MoveSafe(s, s.procs[a.pid], a.ok);
      NoAdminsYet(s.t, s.now, stmt, g, u);
    }
  }

  lemma NoAdminsYet(t: Tables, now: Time, stmt: Stmt, g: RoomId, u: Uid)
    requires (g, u) !in t.members && (stmt.AddRow? ==> stmt.group != g)
    ensures !HasRole(TablesAfter(t, now, stmt), g, u, Admin)
  {}

  // Whoever is an admin was one from the start or was made one by the owner, and has been one
  // ever since: nobody joins as an admin.
  lemma {:induction false} AdminsWereMade(cfg: Config, b: seq<State>, acts: seq<Action>, k: nat, g: RoomId, u: Uid)
    requires Behaviour(cfg, b, acts) && k < |b| && HasRole(b[k].t, g, u, Admin)
    ensures || AdminFrom(b, 0, k, g, u)
            || exists i :: 0 <= i < k && MakesAdmin(cfg, b, acts, i, g, u) && AdminFrom(b, i + 1, k, g, u)
  {
    if k > 0 {
      var n := k - 1;
      if HasRole(b[n].t, g, u, Admin) {
        AdminsWereMade(cfg, b, acts, n, g, u);
        StillAdmin(cfg, b, acts, n, g, u);
      } else {
        NewAdminWasMade(cfg, b, acts, n, g, u);
        assert AdminFrom(b, n + 1, k, g, u);
      }
    }
  }

  lemma StillAdmin(cfg: Config, b: seq<State>, acts: seq<Action>, n: nat, g: RoomId, u: Uid)
    requires n < |acts| && |b| == |acts| + 1 && HasRole(b[n + 1].t, g, u, Admin)
    ensures forall i: nat :: i <= n && AdminFrom(b, i, n, g, u) ==> AdminFrom(b, i, n + 1, g, u)
  {}
}
