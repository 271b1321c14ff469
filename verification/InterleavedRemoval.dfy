/** The two roles a removal goes by are read at two instants, and need not have permitted it
    at any one. */
module InterleavedRemoval {
  import opened Domain
  import opened Tables
  import opened MessageLog
  import opened Interleaved
  import opened InterleavedSolo

  // A run from s to e, no call failing, at no instant of which the actor may remove u.
  ghost predicate NeverAllowed(cfg: Config, s: State, e: State, g: RoomId, actor: Uid, u: Uid) {
    exists b, acts :: Trace(cfg, b, acts, s, e) && NoneFails(acts) && Forbids(b, g, actor, u)
  }

  ghost predicate Forbids(b: seq<State>, g: RoomId, actor: Uid, u: Uid) {
    forall i :: 0 <= i < |b| ==> !MayRemove(b[i].t, actor, g, u)
  }

  lemma StillForbidden(cfg: Config, s: State, mid: State, e: State, g: RoomId, actor: Uid, u: Uid)
    requires NeverAllowed(cfg, s, mid, g, actor, u) && NeverAllowed(cfg, mid, e, g, actor, u)
    ensures NeverAllowed(cfg, s, e, g, actor, u)
  {
    var b, acts :| Trace(cfg, b, acts, s, mid) && NoneFails(acts) && Forbids(b, g, actor, u);
    var b', acts' :| Trace(cfg, b', acts', mid, e) && NoneFails(acts') && Forbids(b', g, actor, u);
    TracesJoin(cfg, b, acts, b', acts', s, mid, e);
    assert NoneFails(acts + acts') && Forbids(b + b'[1..], g, actor, u);
  }

  lemma Forbidden(cfg: Config, s: State, a: Action, g: RoomId, actor: Uid, u: Uid) returns (e: State)
    requires Enabled(cfg, s, a) && (a.Call? ==> a.ok)
    requires !MayRemove(s.t, actor, g, u) && !MayRemove(Apply(cfg, s, a).t, actor, g, u)
    ensures e == Apply(cfg, s, a) && NeverAllowed(cfg, s, e, g, actor, u)
  {
    e := Apply(cfg, s, a);
    assert Trace(cfg, [s, e], [a], s, e) && NoneFails([a]) && Forbids([s, e], g, actor, u);
  }

  lemma Arrives(cfg: Config, s: State, pid: Pid, req: Request, g: RoomId, actor: Uid, u: Uid) returns (e: State)
    requires pid !in s.procs && Accepted(req) && !MayRemove(s.t, actor, g, u)
    ensures NeverAllowed(cfg, s, e, g, actor, u)
    ensures e == s.(procs := s.procs[pid := Proc(req, s.now, FirstCall(req))])
  {
    e := Forbidden(cfg, s, Arrive(pid, req), g, actor, u);
  }

  lemma Calls(cfg: Config, s: State, pid: Pid, mv: Move, g: RoomId, actor: Uid, u: Uid) returns (e: State)
    requires Running(cfg, s, pid) && !s.procs[pid].pc.Done? && MoveOf(s, s.procs[pid], true) == mv
    requires !MayRemove(s.t, actor, g, u) && !MayRemove(TablesAfter(s.t, s.now, mv.stmt), actor, g, u)
    ensures NeverAllowed(cfg, s, e, g, actor, u) && e.now == s.now
    ensures e.t == TablesAfter(s.t, s.now, mv.stmt) && e.procs == s.procs[pid := s.procs[pid].(pc := mv.pc)]
  {
    e := Forbidden(cfg, s, Call(pid, true), g, actor, u);
  }

  // The owner turns x into an ordinary member, in a request of its own.
  lemma Demotes(cfg: Config, s: State, pid: Pid, owner: Uid, x: Uid, g: RoomId, actor: Uid, u: Uid) returns (e: State)
    requires pid !in s.procs && IsOwner(s.t, g, owner) && (g, x) in s.t.members
    requires !MayRemove(s.t, actor, g, u) && !MayRemove(UpdateRole(s.t, g, x, Member), actor, g, u)
    ensures NeverAllowed(cfg, s, e, g, actor, u) && e.now == s.now && e.t == UpdateRole(s.t, g, x, Member)
    ensures e.procs == s.procs[pid := Proc(AdminReq(owner, g, x, false), s.now, Done)]
  {
    var s1 := Asks(cfg, s, pid, owner, x, g, actor, u);
    e := Calls(cfg, s1, pid, Move(RoleRow(g, x, Member), Done), g, actor, u);
    StillForbidden(cfg, s, s1, e, g, actor, u);
  }

  lemma Asks(cfg: Config, s: State, pid: Pid, owner: Uid, x: Uid, g: RoomId, actor: Uid, u: Uid) returns (e: State)
    requires pid !in s.procs && IsOwner(s.t, g, owner) && !MayRemove(s.t, actor, g, u)
    ensures NeverAllowed(cfg, s, e, g, actor, u) && e.now == s.now && e.t == s.t
    ensures e.procs == s.procs[pid := Proc(AdminReq(owner, g, x, false), s.now, Write)]
  {
    var s1 := Arrives(cfg, s, pid, AdminReq(owner, g, x, false), g, actor, u);
    e := Calls(cfg, s1, pid, Move(Nothing, Write), g, actor, u);
    StillForbidden(cfg, s, s1, e, g, actor, u);
  }

  lemma ReadsActor(cfg: Config, s: State, g: RoomId, actor: Uid, u: Uid) returns (e: State)
    requires s.procs == map[] && (g, actor) in s.t.members && !MayRemove(s.t, actor, g, u)
    ensures NeverAllowed(cfg, s, e, g, actor, u) && e.now == s.now && e.t == s.t
    ensures e.procs == map[1 := Proc(RemoveReq(actor, g, u), s.now, FetchTarget(s.t.members[(g, actor)].role))]
  {
    var s1 := Arrives(cfg, s, 1, RemoveReq(actor, g, u), g, actor, u);
    e := Calls(cfg, s1, 1, Move(Nothing, FetchTarget(s.t.members[(g, actor)].role)), g, actor, u);
    StillForbidden(cfg, s, s1, e, g, actor, u);
  }

  lemma ReadsTargetAndRemoves(cfg: Config, s: State, role: Role, g: RoomId, actor: Uid, u: Uid) returns (e: State)
    requires Running(cfg, s, 1) && s.procs[1].req == RemoveReq(actor, g, u) && s.procs[1].pc == FetchTarget(role)
    requires (g, u) in s.t.members && CanRemoveMember(role, s.t.members[(g, u)].role)
    requires !MayRemove(s.t, actor, g, u)
    ensures NeverAllowed(cfg, s, e, g, actor, u) && e.t == DeleteMember(s.t, g, u)
    ensures e.procs == s.procs[1 := s.procs[1].(pc := Invalidate)]
  {
    var s1 := Calls(cfg, s, 1, Move(Nothing, Write), g, actor, u);
    e := Calls(cfg, s1, 1, Move(RemoveRow(g, u), Invalidate), g, actor, u);
    StillForbidden(cfg, s, s1, e, g, actor, u);
  }

  // One admin removes another, which is never allowed: the request reads that its actor is an
  // admin, the owner makes the actor and then the target ordinary members, and the request
  // reads that its target is one.
  lemma RemovalAllowedAtNoInstant(cfg: Config, s: State, g: RoomId, owner: Uid, actor: Uid, u: Uid) returns (e: State)
    requires Init(cfg, s) && IsOwner(s.t, g, owner) && actor != u
    requires (g, actor) in s.t.members && s.t.members[(g, actor)].role == Admin
    requires (g, u) in s.t.members && s.t.members[(g, u)].role == Admin
    ensures NeverAllowed(cfg, s, e, g, actor, u) && (g, u) !in e.t.members
    ensures e.procs.Keys == {1, 2, 3} && e.procs[1] == Proc(RemoveReq(actor, g, u), s.now, Invalidate)
    ensures e.procs[2] == Proc(AdminReq(owner, g, actor, false), s.now, Done)
    ensures e.procs[3] == Proc(AdminReq(owner, g, u, false), s.now, Done)
  {
    var s1 := ReadsActor(cfg, s, g, actor, u);
    var s2 := DemotesBoth(cfg, s1, owner, g, actor, u);
    e := ReadsTargetAndRemoves(cfg, s2, Admin, g, actor, u);
    StillForbidden(cfg, s, s1, s2, g, actor, u);
    StillForbidden(cfg, s, s2, e, g, actor, u);
  }

  lemma DemotesBoth(cfg: Config, s: State, owner: Uid, g: RoomId, actor: Uid, u: Uid) returns (e: State)
    requires s.procs.Keys == {1} && IsOwner(s.t, g, owner) && actor != u
    requires (g, actor) in s.t.members && s.t.members[(g, actor)].role == Admin
    requires (g, u) in s.t.members && s.t.members[(g, u)].role == Admin
    ensures NeverAllowed(cfg, s, e, g, actor, u) && e.now == s.now && !MayRemove(e.t, actor, g, u)
    ensures (g, u) in e.t.members && e.t.members[(g, u)].role == Member
    ensures e.procs.Keys == {1, 2, 3} && e.procs[1] == s.procs[1]
    ensures e.procs[2] == Proc(AdminReq(owner, g, actor, false), s.now, Done)
    ensures e.procs[3] == Proc(AdminReq(owner, g, u, false), s.now, Done)
  {
    var s1 := Demotes(cfg, s, 2, owner, actor, g, actor, u);
    e := Demotes(cfg, s1, 3, owner, u, g, actor, u);
    StillForbidden(cfg, s, s1, e, g, actor, u);
  }
}
