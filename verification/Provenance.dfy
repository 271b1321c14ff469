/** Where things come from: after any run every message, every room's activity and every role
    is what one request of the run made it, or what it was at the start. */
module Provenance {
  import opened Domain
  import opened Tables
  import opened MessageLog
  import opened Chats
  import opened History
  import opened Requests

  // ----- Messages -----

  // Request i is an accepted send, and id the message it stored.
  ghost predicate StoredAt(c: Chat, ops: seq<Op>, i: nat, id: MsgId)
    requires i < |ops|
  {
    IsStored(Run(c, ops[..i]), ops[i], id)
  }

  ghost predicate IsStored(c: Chat, op: Op, id: MsgId) {
    op.Send? && Reply(c, op) == Ok && c.m.nextId == id
  }

  ghost predicate LoggedAfter(c: Chat, ops: seq<Op>, n: nat, id: MsgId)
    requires n <= |ops|
  {
    id in Run(c, ops[..n]).m.rows
  }

  lemma LoggedNext(c: Chat, ops: seq<Op>, k: nat, id: MsgId)
    requires k < |ops|
    ensures LoggedAfter(c, ops, k + 1, id) <==> LoggedAfter(c, ops, k, id) || StoredAt(c, ops, k, id)
  {
    RunNext(c, ops, k);
  }

  lemma {:induction false} LoggedUpTo(c: Chat, ops: seq<Op>, n: nat, id: MsgId)
    requires n <= |ops|
    ensures LoggedAfter(c, ops, n, id) <==> id in c.m.rows || exists i :: 0 <= i < n && StoredAt(c, ops, i, id)
  {
    if n > 0 {
      LoggedUpTo(c, ops, n - 1, id);
      LoggedNext(c, ops, n - 1, id);
    }
  }

  lemma StoredNext(c: Chat, op: Op, id: MsgId)
    requires LogOk(c.m) && IsStored(c, op, id)
    ensures id !in c.m.rows && id in Step(c, op).m.rows && id < Step(c, op).m.nextId
    ensures var msg := Step(c, op).m.rows[id]; Carries(msg, op.uid, op.req) && msg.created == op.at.insert
  {
    SendStores(c, op.uid, op.req, op.at);
  }

  // What a send stored is still there at the end, and no later one stores under its id.
  lemma StoredStays(c: Chat, ops: seq<Op>, i: nat, id: MsgId)
    requires LogOk(c.m) && i < |ops| && StoredAt(c, ops, i, id)
    ensures id !in c.m.rows && id in Run(c, ops).m.rows && id < Run(c, ops[..i + 1]).m.nextId
    ensures var msg := Run(c, ops).m.rows[id]; Carries(msg, ops[i].uid, ops[i].req) && msg.created == ops[i].at.insert
  {
    RunGrows(c, ops, 0, i);
    RunGrows(c, ops, i, i);
    RunGrows(c, ops, i + 1, |ops|);
    RunNext(c, ops, i);
    StoredNext(Run(c, ops[..i]), ops[i], id);
    assert ops[..|ops|] == ops && ops[..0] == [];
  }

  // The log is what it was and one message per accepted send, which says what was sent.
  lemma LogIsHistory(c: Chat, ops: seq<Op>, id: MsgId)
    requires LogOk(c.m)
    ensures var m := Run(c, ops).m;
            && (id in m.rows <==> id in c.m.rows || exists i :: 0 <= i < |ops| && StoredAt(c, ops, i, id))
            && (id in c.m.rows ==> SameButDeleted(c.m.rows[id], m.rows[id]))
            && forall i :: 0 <= i < |ops| && StoredAt(c, ops, i, id) ==>
                 && id in m.rows && id !in c.m.rows
                 && Carries(m.rows[id], ops[i].uid, ops[i].req) && m.rows[id].created == ops[i].at.insert
                 && forall j :: i < j < |ops| ==> !StoredAt(c, ops, j, id)
  {
    LoggedUpTo(c, ops, |ops|, id);
    RunGrows(c, ops, 0, |ops|);
    assert ops[..|ops|] == ops && ops[..0] == [];
    forall i | 0 <= i < |ops| && StoredAt(c, ops, i, id)
      ensures var msg := Run(c, ops).m.rows[id];
              id !in c.m.rows && Carries(msg, ops[i].uid, ops[i].req) && msg.created == ops[i].at.insert
      ensures forall j :: i < j < |ops| ==> !StoredAt(c, ops, j, id)
    {
      StoredStays(c, ops, i, id);
      forall j | i < j < |ops| ensures !StoredAt(c, ops, j, id) { RunGrows(c, ops, i + 1, j); }
    }
  }

  // ----- The last of several -----

  ghost predicate NoneFrom(marks: seq<bool>, i: nat) {
    forall j :: i <= j < |marks| ==> !marks[j]
  }

  ghost predicate IsLast(marks: seq<bool>, i: nat) {
    i < |marks| && marks[i] && NoneFrom(marks, i + 1)
  }

  lemma {:induction false} NoneOrLast(marks: seq<bool>, n: nat)
    requires n <= |marks| && NoneFrom(marks, n)
    ensures NoneFrom(marks, 0) || exists i: nat :: IsLast(marks, i)
  {
    if n > 0 {
      if marks[n - 1] { assert IsLast(marks, n - 1); } else { NoneOrLast(marks, n - 1); }
    }
  }

  // ----- Rooms -----

  ghost predicate SameKind(t: Tables, t': Tables, r: RoomId) {
    && (r in t.rooms ==>
          r in t'.rooms && t'.rooms[r].kind == t.rooms[r].kind && t'.rooms[r].hot == t.rooms[r].hot)
    && (r in t'.rooms && t'.rooms[r].hot ==> r in t.rooms && t.rooms[r].hot)
  }

  lemma RoomsAfter(c: Chat, op: Op, r: RoomId)
    requires DetailRows(c.t)
    ensures SameKind(c.t, Step(c, op).t, r)
    ensures ActivityIn(Step(c, op).t, r) == if IsActive(c, op, r) then Some(ActivityOf(op)) else ActivityIn(c.t, r)
  {
    match op
    case Send(uid, req, at) => if Reply(c, op) == Ok { SendTouches(c, uid, req, at); }
    case CreateGroup(uid, name, avatar, now) => GroupIsMade(c, uid, name, avatar, now);
    case CreateFriendRoom(uid, other, now) => PairIsMade(c, uid, other, now);
    case _ => RoomsUntouched(c, op);
  }

  lemma RoomsUntouched(c: Chat, op: Op)
    requires !op.Send? && !op.CreateGroup? && !op.CreateFriendRoom?
    ensures Step(c, op).t.rooms == c.t.rooms
  {}

  ghost function TablesAfter(c: Chat, ops: seq<Op>, n: nat): Tables
    requires n <= |ops|
  {
    Run(c, ops[..n]).t
  }

  lemma RoomsNext(c: Chat, ops: seq<Op>, k: nat, r: RoomId)
    requires ChatOk(c) && RunAdmissible(c, ops) && k < |ops|
    ensures SameKind(TablesAfter(c, ops, k), TablesAfter(c, ops, k + 1), r)
    ensures ActivityIn(TablesAfter(c, ops, k + 1), r)
         == if ActiveMarks(c, ops, r)[k] then Some(ActivityOf(ops[k])) else ActivityIn(TablesAfter(c, ops, k), r)
  {
    PrefixAdmissible(c, ops, k);
    RunKeepsOk(c, ops[..k]);
    RunNext(c, ops, k);
    RoomsAfter(Run(c, ops[..k]), ops[k], r);
  }

  // A room stays, and stays what it is: nothing makes a room hot, or a hot one ordinary, and no
  // room is hot that was not so from the start.
  lemma {:induction false} RoomsStay(c: Chat, ops: seq<Op>, i: nat, j: nat, r: RoomId)
    requires ChatOk(c) && RunAdmissible(c, ops) && i <= j <= |ops|
    ensures SameKind(TablesAfter(c, ops, i), TablesAfter(c, ops, j), r)
    decreases j
  {
    if i < j {
      var k := j - 1;
      RoomsStay(c, ops, i, k, r);
      RoomsNext(c, ops, k, r);
      SameKindJoins(TablesAfter(c, ops, i), TablesAfter(c, ops, k), TablesAfter(c, ops, k + 1), r);
    }
  }

  lemma SameKindJoins(t: Tables, t': Tables, t'': Tables, r: RoomId)
    requires SameKind(t, t', r) && SameKind(t', t'', r)
    ensures SameKind(t, t'', r)
  {}

  function ActivityIn(t: Tables, r: RoomId): Option<Time> {
    if r in t.rooms then Some(t.rooms[r].activeTime) else None
  }

  // An accepted send to r, or what creates it.
  ghost predicate IsActive(c: Chat, op: Op, r: RoomId) {
    && Reply(c, op) == Ok
    && match op
       case Send(uid, req, at) => req.room == r
       case CreateGroup(uid, name, avatar, now) => c.t.nextRoom == r
       case CreateFriendRoom(uid, other, now) => c.t.nextRoom == r && !Known(c.t, uid, other)
       case _ => false
  }

  // The activity such a request leaves the room with.
  function ActivityOf(op: Op): Time {
    match op
    case Send(_, _, at) => at.touch
    case CreateGroup(_, _, _, now) => now
    case CreateFriendRoom(_, _, now) => now
    case _ => 0
  }

  // Which requests of the run are active in r.
  ghost function ActiveMarks(c: Chat, ops: seq<Op>, r: RoomId): (marks: seq<bool>)
    ensures |marks| == |ops|
  {
    seq(|ops|, i requires 0 <= i < |ops| => IsActive(Run(c, ops[..i]), ops[i], r))
  }

  lemma {:induction false} ActivitySince(c: Chat, ops: seq<Op>, i: nat, n: nat, r: RoomId)
    requires ChatOk(c) && RunAdmissible(c, ops) && i <= n <= |ops| && NoneFrom(ActiveMarks(c, ops, r), i)
    ensures ActivityIn(TablesAfter(c, ops, n), r) == ActivityIn(TablesAfter(c, ops, i), r)
    decreases n
  {
    if i < n {
      var k := n - 1;
      ActivitySince(c, ops, i, k, r);
      RoomsNext(c, ops, k, r);
      assert !ActiveMarks(c, ops, r)[k];
    }
  }

  // What the last active request of a run leaves, the run ends with.
  lemma LastActivity(c: Chat, ops: seq<Op>, i: nat, r: RoomId)
    requires ChatOk(c) && RunAdmissible(c, ops) && IsLast(ActiveMarks(c, ops, r), i)
    ensures ActivityIn(TablesAfter(c, ops, |ops|), r) == Some(ActivityOf(ops[i]))
  {
    RoomsNext(c, ops, i, r);
    ActivitySince(c, ops, i + 1, |ops|, r);
  }

  // A room is there, and as recent as it is, because of the last message accepted in it, or
  // else its creation, or else the start.
  lemma ActivityIsHistory(c: Chat, ops: seq<Op>, r: RoomId)
    requires ChatOk(c) && RunAdmissible(c, ops)
    ensures NoneFrom(ActiveMarks(c, ops, r), 0) ==> ActivityIn(Run(c, ops).t, r) == ActivityIn(c.t, r)
    ensures forall i: nat :: IsLast(ActiveMarks(c, ops, r), i) ==>
              ActivityIn(Run(c, ops).t, r) == Some(ActivityOf(ops[i]))
    ensures NoneFrom(ActiveMarks(c, ops, r), 0) || exists i: nat :: IsLast(ActiveMarks(c, ops, r), i)
  {
    var marks := ActiveMarks(c, ops, r);
    assert ops[..|ops|] == ops && ops[..0] == [];
    NoneOrLast(marks, |ops|);
    if NoneFrom(marks, 0) { ActivitySince(c, ops, 0, |ops|, r); }
    forall i: nat | IsLast(marks, i) ensures ActivityIn(Run(c, ops).t, r) == Some(ActivityOf(ops[i])) {
      LastActivity(c, ops, i, r);
    }
  }

  // ----- Roles -----

  function RoleIn(t: Tables, g: RoomId, u: Uid): Option<Role> {
    if (g, u) in t.members then Some(t.members[(g, u)].role) else None
  }

  // The request settles u's place in group g.
  ghost predicate Settles(c: Chat, op: Op, g: RoomId, u: Uid) {
    && Reply(c, op) == Ok
    && match op
       case CreateGroup(uid, _, _, _) => uid == u && c.t.nextRoom == g
       case AddMember(_, group, target) => group == g && target == u
       case RemoveMember(_, group, target) => group == g && target == u
       case ExitGroup(uid, group) => group == g && uid == u
       case SetAdmin(_, group, target, _) => group == g && target == u && (g, u) in c.t.members
       case _ => false
  }

  // The place it gives.
  function PlaceGiven(op: Op): Option<Role> {
    match op
    case CreateGroup(_, _, _, _) => Some(Owner)
    case AddMember(_, _, _) => Some(Member)
    case SetAdmin(_, _, _, isAdmin) => Some(if isAdmin then Admin else Member)
    case _ => None
  }

  lemma RoleAfter(c: Chat, op: Op, g: RoomId, u: Uid)
    ensures RoleIn(Step(c, op).t, g, u) == if Settles(c, op, g, u) then PlaceGiven(op) else RoleIn(c.t, g, u)
  {
    match op
    case CreateGroup(uid, name, avatar, now) => GroupIsMade(c, uid, name, avatar, now);
    case AddMember(uid, group, target) => MemberIsAdded(c, uid, group, target);
    case RemoveMember(uid, group, target) => MemberIsRemoved(c, uid, group, target);
    case ExitGroup(uid, group) => MemberLeaves(c, uid, group);
    case SetAdmin(uid, group, target, isAdmin) => RoleIsGiven(c, uid, group, target, isAdmin);
    case _ => MembersUntouched(c, op);
  }

  // Which requests of the run settle u's place in g.
  ghost function SettledMarks(c: Chat, ops: seq<Op>, g: RoomId, u: Uid): (marks: seq<bool>)
    ensures |marks| == |ops|
  {
    seq(|ops|, i requires 0 <= i < |ops| => Settles(Run(c, ops[..i]), ops[i], g, u))
  }

  lemma RoleNext(c: Chat, ops: seq<Op>, k: nat, g: RoomId, u: Uid)
    requires k < |ops|
    ensures RoleIn(TablesAfter(c, ops, k + 1), g, u)
         == if SettledMarks(c, ops, g, u)[k] then PlaceGiven(ops[k]) else RoleIn(TablesAfter(c, ops, k), g, u)
  {
    RunNext(c, ops, k);
    RoleAfter(Run(c, ops[..k]), ops[k], g, u);
  }

  lemma {:induction false} RoleSince(c: Chat, ops: seq<Op>, i: nat, n: nat, g: RoomId, u: Uid)
    requires i <= n <= |ops| && NoneFrom(SettledMarks(c, ops, g, u), i)
    ensures RoleIn(TablesAfter(c, ops, n), g, u) == RoleIn(TablesAfter(c, ops, i), g, u)
    decreases n
  {
    if i < n {
      var k := n - 1;
      RoleSince(c, ops, i, k, g, u);
      RoleNext(c, ops, k, g, u);
      assert !SettledMarks(c, ops, g, u)[k];
    }
  }

  // u's place in g, if any, is what the last request that settled it gave, or what it was.
  lemma RoleIsHistory(c: Chat, ops: seq<Op>, g: RoomId, u: Uid)
    ensures var marks, end := SettledMarks(c, ops, g, u), RoleIn(Run(c, ops).t, g, u);
            && (NoneFrom(marks, 0) ==> end == RoleIn(c.t, g, u))
            && (forall i: nat :: IsLast(marks, i) ==> end == PlaceGiven(ops[i]))
            && (NoneFrom(marks, 0) || exists i: nat :: IsLast(marks, i))
  {
    var marks := SettledMarks(c, ops, g, u);
    assert ops[..|ops|] == ops && ops[..0] == [];
    NoneOrLast(marks, |ops|);
    if NoneFrom(marks, 0) { RoleSince(c, ops, 0, |ops|, g, u); }
    forall i: nat | IsLast(marks, i) ensures RoleIn(Run(c, ops).t, g, u) == PlaceGiven(ops[i]) {
      RoleNext(c, ops, i, g, u);
      RoleSince(c, ops, i + 1, |ops|, g, u);
    }
  }

  // Request i is one of g's owner that makes the member u an admin.
  ghost predicate MadeAdminAt(c: Chat, ops: seq<Op>, i: nat, g: RoomId, u: Uid)
    requires i < |ops|
  {
    MakesAdmin(Run(c, ops[..i]), ops[i], g, u)
  }

  ghost predicate MakesAdmin(c: Chat, op: Op, g: RoomId, u: Uid) {
    && op.SetAdmin? && op.group == g && op.target == u && op.isAdmin
    && HasRole(c.t, g, op.uid, Owner) && (g, u) in c.t.members
  }

  lemma MakesAdminIff(c: Chat, op: Op, g: RoomId, u: Uid)
    ensures MakesAdmin(c, op, g, u) <==> Settles(c, op, g, u) && PlaceGiven(op) == Some(Admin)
  {
    if op.SetAdmin? { RoleIsGiven(c, op.uid, op.group, op.target, op.isAdmin); }
  }

  // Exactly those are admins whom the owner made so, or who were at the start, and whose place
  // nothing has settled since. In particular nobody joins as one.
  lemma AdminsWereMade(c: Chat, ops: seq<Op>, g: RoomId, u: Uid)
    ensures var marks := SettledMarks(c, ops, g, u);
            HasRole(Run(c, ops).t, g, u, Admin)
            <==> || (HasRole(c.t, g, u, Admin) && NoneFrom(marks, 0))
                 || exists i :: 0 <= i < |ops| && MadeAdminAt(c, ops, i, g, u) && NoneFrom(marks, i + 1)
  {
    RoleIsHistory(c, ops, g, u);
    var marks := SettledMarks(c, ops, g, u);
    forall i | 0 <= i < |ops|
      ensures MadeAdminAt(c, ops, i, g, u) <==> marks[i] && PlaceGiven(ops[i]) == Some(Admin)
    {
      MakesAdminIff(Run(c, ops[..i]), ops[i], g, u);
    }
    if i :| 0 <= i < |ops| && MadeAdminAt(c, ops, i, g, u) && NoneFrom(marks, i + 1) { assert IsLast(marks, i); }
  }
}
