/** Check, then act: what a membership change or a recall was permitted by, when other requests
    may run between a handler's checks and its write. */
module InterleavedPermission {
  import opened Domain
  import opened Tables
  import opened MessageLog
  import opened Interleaved
  import opened InterleavedSafety
  import opened InterleavedLog
  import opened InterleavedStaleness
  import Chats

  // State j of the run is no later than state i and no earlier than `since`.
  ghost predicate Between(b: seq<State>, i: nat, since: int, j: nat) {
    j <= i < |b| && since <= b[j].now
  }

  // The role u had in g at some instant since.
  ghost predicate HadRole(b: seq<State>, i: nat, since: int, g: RoomId, u: Uid, roles: set<Role>) {
    exists j: nat :: Between(b, i, since, j) && (g, u) in b[j].t.members && b[j].t.members[(g, u)].role in roles
  }

  // The two roles that permit a removal, each at some instant since, the actor's first.
  ghost predicate HadRoles(b: seq<State>, i: nat, since: int, g: RoomId, actor: Uid, u: Uid) {
    exists j: nat, k: nat ::
      && j <= k && Between(b, i, since, j) && Between(b, i, since, k)
      && (g, actor) in b[j].t.members && (g, u) in b[k].t.members
      && CanRemoveMember(b[j].t.members[(g, actor)].role, b[k].t.members[(g, u)].role)
  }

  ghost predicate WasEntitled(b: seq<State>, i: nat, since: int, actor: Uid, id: MsgId) {
    exists j: nat :: Between(b, i, since, j) && Chats.Entitled(b[j].t, b[j].m, actor, id, b[j].now)
  }

  const ANY: set<Role> := {Owner, Admin, Member}

  // A message as it was read: nothing but its mark can have changed.
  ghost predicate IsRow(m: MessageTable, msg: Message) {
    msg.id in m.rows && m.rows[msg.id].(deleted := msg.deleted) == msg
  }

  // What the checks of a request have found since it began.
  ghost predicate MayWrite(b: seq<State>, i: nat, since: int, req: Request) {
    match req
    case AddReq(uid, g, _) => HadRole(b, i, since, g, uid, ANY)
    case RemoveReq(uid, g, target) => HadRoles(b, i, since, g, uid, target)
    case ExitReq(uid, g) => HadRole(b, i, since, g, uid, {Admin, Member})
    case AdminReq(uid, g, _, _) => HadRole(b, i, since, g, uid, {Owner})
    case _ => true
  }

  // What permits the process to make its next call.
  ghost predicate Permitted(b: seq<State>, i: nat, p: Proc)
    requires i < |b|
  {
    match p.pc
    case FetchTarget(role) => p.req.RemoveReq? && HadRole(b, i, p.start, p.req.group, p.req.uid, {role})
    case Write => MayWrite(b, i, p.start, p.req)
    case FetchRole(msg) => IsRow(b[i].m, msg) && p.req == RecallReq(p.req.uid, msg.id)
    case MarkRow(msg) => p.req == RecallReq(p.req.uid, msg.id) && WasEntitled(b, i, p.start, p.req.uid, msg.id)
    case _ => true
  }

  lemma HadRoleKept(b: seq<State>, i: nat, since: int, g: RoomId, u: Uid, roles: set<Role>)
    requires i + 1 < |b| && HadRole(b, i, since, g, u, roles)
    ensures HadRole(b, i + 1, since, g, u, roles)
  {
    var j: nat :| Between(b, i, since, j) && (g, u) in b[j].t.members && b[j].t.members[(g, u)].role in roles;
    assert Between(b, i + 1, since, j);
  }

  lemma HadRolesKept(b: seq<State>, i: nat, since: int, g: RoomId, actor: Uid, u: Uid)
    requires i + 1 < |b| && HadRoles(b, i, since, g, actor, u)
    ensures HadRoles(b, i + 1, since, g, actor, u)
  {
    var j: nat, k: nat :|
      && j <= k && Between(b, i, since, j) && Between(b, i, since, k)
      && (g, actor) in b[j].t.members && (g, u) in b[k].t.members
      && CanRemoveMember(b[j].t.members[(g, actor)].role, b[k].t.members[(g, u)].role);
    assert Between(b, i + 1, since, j) && Between(b, i + 1, since, k);
  }

  lemma EntitledKept(b: seq<State>, i: nat, since: int, actor: Uid, id: MsgId)
    requires i + 1 < |b| && WasEntitled(b, i, since, actor, id)
    ensures WasEntitled(b, i + 1, since, actor, id)
  {
    var j: nat :| Between(b, i, since, j) && Chats.Entitled(b[j].t, b[j].m, actor, id, b[j].now);
    assert Between(b, i + 1, since, j);
  }

  lemma MayWriteKept(b: seq<State>, i: nat, since: int, req: Request)
    requires i + 1 < |b| && MayWrite(b, i, since, req)
    ensures MayWrite(b, i + 1, since, req)
  {
    match req
    case AddReq(uid, g, _) => HadRoleKept(b, i, since, g, uid, ANY);
    case RemoveReq(uid, g, target) => HadRolesKept(b, i, since, g, uid, target);
    case ExitReq(uid, g) => HadRoleKept(b, i, since, g, uid, {Admin, Member});
    case AdminReq(uid, g, _, _) => HadRoleKept(b, i, since, g, uid, {Owner});
    case _ =>
  }

  // Permission once had is not lost while the process waits.
  lemma PermittedKept(b: seq<State>, i: nat, p: Proc)
    requires i + 1 < |b| && Permitted(b, i, p) && Grew(b[i].m, b[i + 1].m)
    ensures Permitted(b, i + 1, p)
  {
    match p.pc
    case FetchTarget(role) => HadRoleKept(b, i, p.start, p.req.group, p.req.uid, {role});
    case Write => MayWriteKept(b, i, p.start, p.req);
    case MarkRow(msg) => EntitledKept(b, i, p.start, p.req.uid, msg.id);
    case _ =>
  }

  // ----- The checks -----

  lemma ActorChecked(b: seq<State>, i: nat, p: Proc)
    requires i < |b| && p.start <= b[i].now
    ensures Permitted(b, i, p.(pc := ActorMove(b[i], p.req)))
  {
    assert Between(b, i, p.start, i);
    if !p.req.RecallReq? && !p.req.MarkReadReq? && !p.req.FriendReq? && !p.req.GroupReq? && !p.req.SendReq? {
      var key := (p.req.group, p.req.uid);
      if key in b[i].t.members { EveryRole(b[i].t.members[key].role); }
    }
  }

  lemma EveryRole(role: Role)
    ensures role in ANY && (role != Owner ==> role in {Admin, Member})
  {
    match role
    case Owner =>
    case Admin =>
    case Member =>
  }

  lemma TargetChecked(b: seq<State>, i: nat, p: Proc)
    requires i < |b| && p.start <= b[i].now && p.pc.FetchTarget? && Permitted(b, i, p)
    ensures Permitted(b, i, p.(pc := RoomMove(b[i], p, true).pc))
  {
    var uid, g := p.req.uid, p.req.group;
    var j: nat :|
      && Between(b, i, p.start, j) && (g, uid) in b[j].t.members
      && b[j].t.members[(g, uid)].role in {p.pc.actor};
    assert Between(b, i, p.start, i) && j <= i;
  }

  lemma RecallChecked(b: seq<State>, i: nat, p: Proc, ok: bool)
    requires i < |b| && p.start <= b[i].now && p.pc.FetchRole? && Permitted(b, i, p)
    ensures Permitted(b, i, p.(pc := MessageMove(b[i], p, ok).pc))
  {
    assert Between(b, i, p.start, i);
    var msg, row := p.pc.msg, b[i].m.rows[p.pc.msg.id];
    assert row.room == msg.room && row.from == msg.from && row.created == msg.created;
  }

  lemma MovePermitted(b: seq<State>, i: nat, p: Proc, ok: bool)
    requires i < |b| && p.start <= b[i].now && LogOk(b[i].m) && Permitted(b, i, p)
    ensures Permitted(b, i, p.(pc := MoveOf(b[i], p, ok).pc))
  {
    if p.pc.FetchActor? { ActorChecked(b, i, p); }
    else if p.pc.FetchTarget? { TargetChecked(b, i, p); }
    else if p.pc.FetchRole? { RecallChecked(b, i, p, ok); }
    else { OtherCalls(b, i, p, ok); }
  }

  lemma OtherCalls(b: seq<State>, i: nat, p: Proc, ok: bool)
    requires i < |b| && LogOk(b[i].m) && !p.pc.FetchActor? && !p.pc.FetchTarget? && !p.pc.FetchRole?
    ensures Permitted(b, i, p.(pc := MoveOf(b[i], p, ok).pc))
  {}

  ghost predicate AllPermitted(b: seq<State>, i: nat)
    requires i < |b|
  {
    forall pid :: pid in b[i].procs ==> Permitted(b, i, b[i].procs[pid])
  }

  lemma StepPermitted(cfg: Config, b: seq<State>, a: Action, i: nat)
    requires i + 1 < |b| && AllPermitted(b, i) && Leads(cfg, b[i], a, b[i + 1])
    requires LogOk(b[i].m) && Grew(b[i].m, b[i + 1].m)
    requires forall pid :: pid in b[i].procs ==> b[i].procs[pid].start <= b[i].now
    ensures AllPermitted(b, i + 1)
  {
    var procs := b[i + 1].procs;
    forall pid | pid in procs ensures Permitted(b, i + 1, procs[pid]) {
      if !(a.Arrive? && pid == a.pid) {
        if a.Call? && pid == a.pid { MovePermitted(b, i, b[i].procs[pid], a.ok); }
        PermittedKept(b, i, procs[pid]);
      }
    }
  }

  lemma {:induction false} EveryonePermitted(cfg: Config, b: seq<State>, acts: seq<Action>, i: nat)
    requires Behaviour(cfg, b, acts) && i < |b|
    ensures AllPermitted(b, i)
  {
    if i > 0 {
      var k := i - 1;
      EveryonePermitted(cfg, b, acts, k);
      Started(cfg, b, acts, k);
      LogStaysOk(cfg, b, acts, k);
      NextGrows(cfg, b, acts, k);
      assert Leads(cfg, b[k], acts[k], b[k + 1]);
      StepPermitted(cfg, b, acts[k], k);
    }
  }

  lemma Started(cfg: Config, b: seq<State>, acts: seq<Action>, i: nat)
    requires Behaviour(cfg, b, acts) && i < |b|
    ensures forall pid :: pid in b[i].procs ==> b[i].procs[pid].start <= b[i].now
  {
    Witnessed(cfg, b, acts, i);
    forall pid | pid in b[i].procs ensures b[i].procs[pid].start <= b[i].now {
      assert HoldsOk(cfg, b, i, b[i].procs[pid]);
    }
  }

  // ----- Main results -----

  // The request whose call is the i-th step.
  function ActorOf(s: State, a: Action): Option<Request> {
    if a.Call? && a.pid in s.procs then Some(s.procs[a.pid].req) else None
  }

  lemma WriterPermitted(cfg: Config, b: seq<State>, acts: seq<Action>, i: nat) returns (p: Proc)
    requires Behaviour(cfg, b, acts) && i < |acts| && acts[i].Call? && acts[i].ok
    ensures acts[i].pid in b[i].procs && p == b[i].procs[acts[i].pid]
    ensures Permitted(b, i, p) && b[i].now - cfg.deadline <= p.start && b[i + 1].now == b[i].now
    ensures b[i + 1].t == TablesAfter(b[i].t, b[i].now, MoveOf(b[i], p, true).stmt)
    ensures b[i + 1].m == LogAfter(b[i].m, b[i].now, MoveOf(b[i], p, true).stmt)
  {
    assert Leads(cfg, b[i], acts[i], b[i + 1]);
    EveryonePermitted(cfg, b, acts, i);
    p := b[i].procs[acts[i].pid];
  }

  lemma FailedCallsWriteNothing(s: State, p: Proc)
    ensures MoveOf(s, p, false).stmt == Nothing
  {}

  ghost predicate SameRow(t: Tables, t': Tables, g: RoomId, u: Uid) {
    ((g, u) in t.members <==> (g, u) in t'.members) && ((g, u) in t.members ==> t'.members[(g, u)] == t.members[(g, u)])
  }

  ghost predicate RowIs(t: Tables, g: RoomId, u: Uid, row: MemberRow) {
    (g, u) in t.members && t.members[(g, u)] == row
  }

  lemma RowStmts(t: Tables, now: Time, stmt: Stmt, g: RoomId, u: Uid)
    requires DetailRows(t) && g in t.groups && !SameRow(t, TablesAfter(t, now, stmt), g, u)
    ensures match stmt
            case AddRow(group, uid) =>
              && group == g && uid == u && (g, u) !in t.members
              && RowIs(TablesAfter(t, now, stmt), g, u, MemberRow(t.nextMember, Member))
            case RemoveRow(group, uid) => group == g && uid == u && (g, u) !in TablesAfter(t, now, stmt).members
            case RoleRow(group, uid, role) =>
              && group == g && uid == u && (g, u) in t.members
              && RowIs(TablesAfter(t, now, stmt), g, u, MemberRow(t.members[(g, u)].id, role))
            case _ => false
  {}

  // Row statements are issued by the write of a membership request, and a message is marked
  // by a recall.
  lemma WhoIssues(s: State, p: Proc)
    ensures match MoveOf(s, p, true).stmt
            case AddRow(g, u) => p.pc.Write? && p.req == AddReq(p.req.uid, g, u)
            case RemoveRow(g, u) => p.pc.Write? && (p.req == RemoveReq(p.req.uid, g, u) || p.req == ExitReq(u, g))
            case RoleRow(g, u, role) =>
              && p.pc.Write? && p.req.AdminReq? && p.req.group == g && p.req.target == u
              && role == if p.req.isAdmin then Admin else Member
            case DeleteMessage(id) => p.pc.MarkRow? && p.pc.msg.id == id
            case _ => true
  {}

  lemma SinceEarlier(b: seq<State>, i: nat, since: int, earlier: int, req: Request)
    requires MayWrite(b, i, since, req) && earlier <= since
    ensures MayWrite(b, i, earlier, req)
  {
    assert forall j: nat :: Between(b, i, since, j) ==> Between(b, i, earlier, j);
  }

  lemma EntitledEarlier(b: seq<State>, i: nat, since: int, earlier: int, actor: Uid, id: MsgId)
    requires WasEntitled(b, i, since, actor, id) && earlier <= since
    ensures WasEntitled(b, i, earlier, actor, id)
  {
    assert forall j: nat :: Between(b, i, since, j) ==> Between(b, i, earlier, j);
  }

  // A membership row of an existing group changes only at the request of somebody whom the
  // roles read at most one deadline earlier permitted it: a member adds, an owner gives roles,
  // one who is no owner leaves, and a removal goes down the ranks, the actor's role having
  // been read before the target's. Whoever is added is an ordinary member at first.
  lemma RowsChangeByPermission(cfg: Config, b: seq<State>, acts: seq<Action>, i: nat, g: RoomId, u: Uid)
    requires Behaviour(cfg, b, acts) && i < |acts| && g in b[i].t.groups && !SameRow(b[i].t, b[i + 1].t, g, u)
    ensures ActorOf(b[i], acts[i]).Some?
    ensures var since := b[i + 1].now - cfg.deadline;
            match ActorOf(b[i], acts[i]).value
            case AddReq(actor, group, target) =>
              && group == g && target == u && (g, u) !in b[i].t.members && HadRole(b, i, since, g, actor, ANY)
              && RowIs(b[i + 1].t, g, u, MemberRow(b[i].t.nextMember, Member))
            case RemoveReq(actor, group, target) =>
              group == g && target == u && (g, u) !in b[i + 1].t.members && HadRoles(b, i, since, g, actor, u)
            case ExitReq(uid, group) =>
              group == g && uid == u && (g, u) !in b[i + 1].t.members && HadRole(b, i, since, g, u, {Admin, Member})
            case AdminReq(actor, group, target, isAdmin) =>
              && group == g && target == u && (g, u) in b[i].t.members && HadRole(b, i, since, g, actor, {Owner})
              && RowIs(b[i + 1].t, g, u, MemberRow(b[i].t.members[(g, u)].id, if isAdmin then Admin else Member))
            case _ => false
  {
    RowChangeIsCall(cfg, b, acts, i, g, u);
    var p := WriterPermitted(cfg, b, acts, i);
    WhoIssues(b[i], p);
    RowStmts(b[i].t, b[i].now, MoveOf(b[i], p, true).stmt, g, u);
    SinceEarlier(b, i, p.start, b[i].now - cfg.deadline, p.req);
  }

  lemma RowChangeIsCall(cfg: Config, b: seq<State>, acts: seq<Action>, i: nat, g: RoomId, u: Uid)
    requires Behaviour(cfg, b, acts) && i < |acts| && g in b[i].t.groups && !SameRow(b[i].t, b[i + 1].t, g, u)
    ensures acts[i].Call? && acts[i].ok && DetailRows(b[i].t)
  {
    BehaviourSafe(cfg, b, acts, i);
    assert Leads(cfg, b[i], acts[i], b[i + 1]);
    if acts[i].Call? && !acts[i].ok { FailedCallsWriteNothing(b[i], b[i].procs[acts[i].pid]); }
  }

  // A message is recalled only at the request of somebody entitled to at most one deadline
  // earlier.
  lemma RecallsWerePermitted(cfg: Config, b: seq<State>, acts: seq<Action>, i: nat, id: MsgId)
    requires Behaviour(cfg, b, acts) && i < |acts| && id in b[i].m.rows && id in b[i + 1].m.rows
    requires !b[i].m.rows[id].deleted && b[i + 1].m.rows[id].deleted
    ensures ActorOf(b[i], acts[i]).Some?
    ensures var req := ActorOf(b[i], acts[i]).value;
            req == RecallReq(req.uid, id) && WasEntitled(b, i, b[i + 1].now - cfg.deadline, req.uid, id)
  {
    RecallIsCall(cfg, b, acts, i, id);
    var p := WriterPermitted(cfg, b, acts, i);
    WhoIssues(b[i], p);
    LogStaysOk(cfg, b, acts, i);
    assert MoveOf(b[i], p, true).stmt == DeleteMessage(id);
    EntitledEarlier(b, i, p.start, b[i].now - cfg.deadline, p.req.uid, id);
  }

  lemma RecallIsCall(cfg: Config, b: seq<State>, acts: seq<Action>, i: nat, id: MsgId)
    requires Behaviour(cfg, b, acts) && i < |acts| && id in b[i].m.rows && id in b[i + 1].m.rows
    requires b[i + 1].m.rows[id] != b[i].m.rows[id]
    ensures acts[i].Call? && acts[i].ok
  {
    assert Leads(cfg, b[i], acts[i], b[i + 1]);
    if acts[i].Call? && !acts[i].ok { FailedCallsWriteNothing(b[i], b[i].procs[acts[i].pid]); }
  }
}
