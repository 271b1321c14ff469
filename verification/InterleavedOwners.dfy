/** Ownership of groups under every interleaving. */
module InterleavedOwners {
  import opened Domain
  import opened Tables
  import opened MessageLog
  import opened Interleaved
  import opened InterleavedSafety
  import opened InterleavedSolo
  import RoomStores

  // Owners are never added to an existing group, so "no owner" lasts for ever.
  lemma OwnersOnlyEnd(cfg: Config, b: seq<State>, acts: seq<Action>, i: nat, j: nat, g: RoomId, u: Uid)
    requires Behaviour(cfg, b, acts) && i <= j < |b| && g in b[i].t.groups
    ensures IsOwner(b[j].t, g, u) ==> IsOwner(b[i].t, g, u)
  {
    BehaviourLater(cfg, b, acts, i, j);
  }

  // Over a behaviour an owner is owner exactly as long as it has not stepped down.
  lemma {:induction false} OwnedIff(cfg: Config, b: seq<State>, acts: seq<Action>, i: nat, k: nat, g: RoomId, u: Uid)
    requires Behaviour(cfg, b, acts) && i <= k < |b| && IsOwner(b[i].t, g, u)
    ensures IsOwner(b[k].t, g, u) <==> forall j :: i <= j < k ==> !StepsDown(b[j], acts[j], g, u)
    decreases k
  {
    if i < k {
      var n := k - 1;
      OwnedIff(cfg, b, acts, i, n, g, u);
      OwnedNext(cfg, b, acts, i, n, g, u);
    }
  }

  lemma OwnedNext(cfg: Config, b: seq<State>, acts: seq<Action>, i: nat, n: nat, g: RoomId, u: Uid)
    requires Behaviour(cfg, b, acts) && i <= n < |acts| && IsOwner(b[i].t, g, u)
    ensures IsOwner(b[n + 1].t, g, u) <==> IsOwner(b[n].t, g, u) && !StepsDown(b[n], acts[n], g, u)
  {
    if IsOwner(b[n].t, g, u) {
      OwnershipEndsBySelf(cfg, b, acts, n, g, u);
    } else {
      BehaviourSafe(cfg, b, acts, i);
      BehaviourLater(cfg, b, acts, i, n);
      OwnersOnlyEnd(cfg, b, acts, n, n + 1, g, u);
    }
  }

  lemma AtMostOneOwner(cfg: Config, b: seq<State>, acts: seq<Action>, i: nat, g: RoomId, u: Uid, v: Uid)
    requires Behaviour(cfg, b, acts) && i < |b|
    ensures IsOwner(b[i].t, g, u) && IsOwner(b[i].t, g, v) ==> u == v
  {
    BehaviourSafe(cfg, b, acts, i);
  }

  // A group begins with its creator as owner and sole member.
  lemma GroupsBeginOwned(cfg: Config, s: State, a: Action, g: RoomId)
    requires StateOk(s) && Enabled(cfg, s, a) && g in Apply(cfg, s, a).t.groups && g !in s.t.groups
    ensures a.Call? && s.procs[a.pid].req.GroupReq?
    ensures var creator := s.procs[a.pid].req.uid;
            IsOwner(Apply(cfg, s, a).t, g, creator) && MemberUids(Apply(cfg, s, a).t, g) == {creator}
  {
    assert a.Call?;
    var p := s.procs[a.pid];
    var stmt := MoveOf(s, p, a.ok).stmt;
    OnlyCreateAddsGroups(s.t, s.now, stmt, g);
    CreateComesFromRequest(s, p, a.ok);
    InsertGroupRoomMembers(s.t, stmt.owner, stmt.name, stmt.avatar, s.now);
  }

  lemma OnlyCreateAddsGroups(t: Tables, now: Time, stmt: Stmt, g: RoomId)
    requires g in TablesAfter(t, now, stmt).groups && g !in t.groups
    ensures stmt.CreateGroup? && g == t.nextRoom && IsOwner(TablesAfter(t, now, stmt), g, stmt.owner)
  {}

  lemma CreateComesFromRequest(s: State, p: Proc, ok: bool)
    requires MoveOf(s, p, ok).stmt.CreateGroup?
    ensures p.req.GroupReq? && MoveOf(s, p, ok).stmt.owner == p.req.uid
  {}

  lemma StmtSparesOwner(t: Tables, m: MessageTable, now: Time, stmt: Stmt, g: RoomId, u: Uid)
    requires SharedOk(t, m) && StmtOk(t, m, stmt) && IsOwner(t, g, u)
    ensures !IsOwner(TablesAfter(t, now, stmt), g, u) <==> stmt.RoleRow? && stmt.group == g && stmt.uid == u
    ensures (g, u) in TablesAfter(t, now, stmt).members
  {
    if stmt.CreateGroup? || stmt.AddRow? || stmt.RemoveRow? || stmt.RoleRow? {
      assert DetailRows(t);
    } else {
      RowsUntouched(t, now, stmt);
    }
  }

  lemma RowsUntouched(t: Tables, now: Time, stmt: Stmt)
    requires !stmt.CreateGroup? && !stmt.AddRow? && !stmt.RemoveRow? && !stmt.RoleRow?
    ensures TablesAfter(t, now, stmt).members == t.members
  {}

  // The owner's own role request, aimed at itself, takes effect.
  ghost predicate StepsDown(s: State, a: Action, g: RoomId, u: Uid) {
    && a.Call? && a.ok && a.pid in s.procs && s.procs[a.pid].pc.Write?
    && match s.procs[a.pid].req
       case AdminReq(uid, group, target, isAdmin) => uid == u && group == g && target == u
       case _ => false
  }

  // No removal and no exit ever deletes an owner's row, whatever happened between its checks
  // and its delete. Ownership ends in one way: by the owner's own request against itself.
  lemma OwnershipEndsBySelf(cfg: Config, b: seq<State>, acts: seq<Action>, i: nat, g: RoomId, u: Uid)
    requires Behaviour(cfg, b, acts) && i < |acts|
    requires IsOwner(b[i].t, g, u)
    ensures !IsOwner(b[i + 1].t, g, u) <==> StepsDown(b[i], acts[i], g, u)
    ensures (g, u) in b[i + 1].t.members
  {
    BehaviourSafe(cfg, b, acts, i);
    assert Leads(cfg, b[i], acts[i], b[i + 1]);
    if acts[i].Call? {
      var p := b[i].procs[acts[i].pid];
      MoveSafe(b[i], p, acts[i].ok);
      StmtSparesOwner(b[i].t, b[i].m, b[i].now, MoveOf(b[i], p, acts[i].ok).stmt, g, u);
      RoleRowsComeFromAdmins(b[i], p, acts[i].ok);
      assert LocalOk(b[i].t, b[i].m, p);
    }
  }

  lemma RoleRowsComeFromAdmins(s: State, p: Proc, ok: bool)
    ensures MoveOf(s, p, ok).stmt.RoleRow? <==> ok && p.pc.Write? && p.req.AdminReq?
    ensures var stmt := MoveOf(s, p, ok).stmt;
            stmt.RoleRow? ==> stmt.group == p.req.group && stmt.uid == p.req.target
  {}

  // ----- 1:1 rooms: what fails when requests overlap -----

  // The step that would store a pair already stored: its request looked before another
  // request's insert.
  ghost predicate RepeatsPair(s: State, a: Action) {
    && a.Call? && a.ok && a.pid in s.procs
    && s.procs[a.pid].pc.Write? && s.procs[a.pid].req.FriendReq?
    && RoomStores.Canonical(s.procs[a.pid].req.uid, s.procs[a.pid].req.other) in s.t.friends.Values
  }

  // Pairs stay unique across a step exactly when it is not such a step.
  lemma PairsStayUniqueIff(cfg: Config, s: State, a: Action)
    requires StateOk(s) && Enabled(cfg, s, a) && PairsUnique(s.t)
    ensures PairsUnique(Apply(cfg, s, a).t) <==> !RepeatsPair(s, a)
  {
    if a.Call? {
      var p := s.procs[a.pid];
      PairComesFromWrite(s, p, a.ok);
      PairStmt(s.t, s.now, MoveOf(s, p, a.ok).stmt);
    }
  }

  lemma PairComesFromWrite(s: State, p: Proc, ok: bool)
    ensures var stmt := MoveOf(s, p, ok).stmt;
            && (stmt.CreatePair? <==> ok && p.pc.Write? && p.req.FriendReq?)
            && (stmt.CreatePair? ==> stmt.pair == RoomStores.Canonical(p.req.uid, p.req.other))
  {}

  lemma PairStmt(t: Tables, now: Time, stmt: Stmt)
    requires WellFormed(t) && PairsUnique(t)
    ensures PairsUnique(TablesAfter(t, now, stmt)) <==> !(stmt.CreatePair? && stmt.pair in t.friends.Values)
  {
    if stmt.CreatePair? { NewPair(t, now, stmt.pair); } else { OldPairs(t, now, stmt); }
  }

  lemma NewPair(t: Tables, now: Time, pair: Friend)
    requires WellFormed(t) && PairsUnique(t)
    ensures PairsUnique(InsertFriendRoom(t, pair.uid1, pair.uid2, now)) <==> pair !in t.friends.Values
  {
    var t' := InsertFriendRoom(t, pair.uid1, pair.uid2, now);
    if r :| r in t.friends && t.friends[r] == pair {
      assert t'.friends[r] == t'.friends[t.nextRoom];
    }
  }

  lemma OldPairs(t: Tables, now: Time, stmt: Stmt)
    requires !stmt.CreatePair?
    ensures TablesAfter(t, now, stmt).friends == t.friends
  {}

  lemma PairsAfterStep(cfg: Config, b: seq<State>, acts: seq<Action>, k: nat)
    requires Behaviour(cfg, b, acts) && k < |acts|
    ensures PairsUnique(b[k + 1].t) <==> PairsUnique(b[k].t) && !RepeatsPair(b[k], acts[k])
  {
    BehaviourSafe(cfg, b, acts, k);
    assert Leads(cfg, b[k], acts[k], b[k + 1]);
    if PairsUnique(b[k].t) {
      PairsStayUniqueIff(cfg, b[k], acts[k]);
    } else {
      StepLater(cfg, b, acts, k);
      TwiceStaysTwice(b[k].t, b[k + 1].t);
    }
  }

  ghost predicate NoRepeats(b: seq<State>, acts: seq<Action>, k: nat)
    requires k <= |b| && k <= |acts|
  {
    forall i :: 0 <= i < k ==> !RepeatsPair(b[i], acts[i])
  }

  // Over a whole behaviour: pairs are unique exactly as long as no such step has been taken.
  lemma {:induction false} PairsUniqueIff(cfg: Config, b: seq<State>, acts: seq<Action>, k: nat)
    requires Behaviour(cfg, b, acts) && k < |b| && PairsUnique(b[0].t)
    ensures PairsUnique(b[k].t) <==> NoRepeats(b, acts, k)
  {
    if k > 0 {
      var n := k - 1;
      PairsUniqueIff(cfg, b, acts, n);
      PairsAfterStep(cfg, b, acts, n);
      OneMoreRepeat(b, acts, n);
    }
  }

  lemma OneMoreRepeat(b: seq<State>, acts: seq<Action>, k: nat)
    requires k < |b| && k < |acts|
    ensures NoRepeats(b, acts, k + 1) <==> NoRepeats(b, acts, k) && !RepeatsPair(b[k], acts[k])
  {}

  lemma TwiceStaysTwice(t: Tables, t': Tables)
    requires !PairsUnique(t) && forall r :: r in t.friends ==> r in t'.friends && t'.friends[r] == t.friends[r]
    ensures !PairsUnique(t')
  {
    var r, q :| r in t.friends && q in t.friends && t.friends[r] == t.friends[q] && r != q;
    assert r in t'.friends && q in t'.friends;
  }

  // It does happen, to any two people without a room: each asks for the other, the first
  // looks, the second looks and stores, and then the first stores too.
  lemma OverlappingCallsMakeTwoRooms(cfg: Config, s: State, u: Uid, v: Uid) returns (e: State)
    requires Init(cfg, s) && u != 0 && v != 0 && u != v
    requires RoomStores.Canonical(u, v) !in s.t.friends.Values
    ensures Happens(cfg, s, e) && e.procs.Keys == {1, 2}
    ensures e.procs[1] == Proc(FriendReq(u, v), s.now, Done) && e.procs[2] == Proc(FriendReq(v, u), s.now, Done)
    ensures HasTwoRooms(e.t, RoomStores.Canonical(u, v)) && !PairsUnique(e.t)
  {
    var pair := RoomStores.Canonical(u, v);
    var s1 := FirstLooks(cfg, s, u, v);
    var s2 := SecondStores(cfg, s1, u, v);
    e := PutsPair(cfg, s2, 1, pair);
    OthersWait(cfg, {}, s2, 1, e);
    ReachesOn(cfg, s, s1, s2);
    ReachesOn(cfg, s, s2, e);
    ReachableHappens(cfg, s, e);
    TwoRooms(s.t, pair, s.now);
  }

  ghost predicate HasTwoRooms(t: Tables, pair: Friend) {
    exists r, q :: r in t.friends && q in t.friends && r != q && t.friends[r] == t.friends[q] == pair
  }

  lemma FirstLooks(cfg: Config, s: State, u: Uid, v: Uid) returns (s': State)
    requires Init(cfg, s) && u != 0 && v != 0 && u != v
    requires RoomStores.Canonical(u, v) !in s.t.friends.Values
    ensures CanReach(cfg, s, s') && s'.now == s.now && s'.t == s.t
    ensures s'.procs.Keys == {1} && s'.procs[1] == Proc(FriendReq(u, v), s.now, Write)
  {
    var s1 := OneStep(cfg, s, Arrive(1, FriendReq(u, v)));
    s' := LooksForPair(cfg, s1, 1, RoomStores.Canonical(u, v));
    OthersWait(cfg, {}, s1, 1, s');
    ReachesOn(cfg, s, s1, s');
  }

  lemma SecondStores(cfg: Config, s: State, u: Uid, v: Uid) returns (e: State)
    requires s.procs.Keys == {1} && u != 0 && v != 0 && u != v
    requires RoomStores.Canonical(u, v) !in s.t.friends.Values
    ensures CanReach(cfg, s, e) && e.now == s.now && e.procs.Keys == {1, 2} && e.procs[1] == s.procs[1]
    ensures e.procs[2] == Proc(FriendReq(v, u), s.now, Done)
    ensures var pair := RoomStores.Canonical(u, v); e.t == InsertFriendRoom(s.t, pair.uid1, pair.uid2, s.now)
  {
    var s1 := OneStep(cfg, s, Arrive(2, FriendReq(v, u)));
    e := StoresPair(cfg, s1, 2, RoomStores.Canonical(u, v));
    OthersWait(cfg, {}, s1, 2, e);
    ReachesOn(cfg, s, s1, e);
  }

  lemma LooksForPair(cfg: Config, s: State, pid: Pid, pair: Friend) returns (s': State)
    requires Running(cfg, s, pid) && s.procs[pid].req.FriendReq? && s.procs[pid].pc == FindPair
    requires pair == RoomStores.Canonical(s.procs[pid].req.uid, s.procs[pid].req.other) && pair !in s.t.friends.Values
    ensures Next(cfg, {}, s, s', pid, Write) && s'.t == s.t && s'.m == s.m && s'.cache == s.cache
  {
    s' := Reads(cfg, {}, s, pid, Write);
  }

  lemma StoresPair(cfg: Config, s: State, pid: Pid, pair: Friend) returns (e: State)
    requires Running(cfg, s, pid) && s.procs[pid].req.FriendReq? && s.procs[pid].pc == FindPair
    requires pair == RoomStores.Canonical(s.procs[pid].req.uid, s.procs[pid].req.other) && pair !in s.t.friends.Values
    ensures Next(cfg, {}, s, e, pid, Done) && e.t == InsertFriendRoom(s.t, pair.uid1, pair.uid2, s.now)
  {
    var s1 := LooksForPair(cfg, s, pid, pair);
    e := PutsPair(cfg, s1, pid, pair);
    Onward(cfg, {}, s, pid, s1, e);
  }

  lemma PutsPair(cfg: Config, s: State, pid: Pid, pair: Friend) returns (e: State)
    requires Running(cfg, s, pid) && s.procs[pid].req.FriendReq? && s.procs[pid].pc == Write
    requires pair == RoomStores.Canonical(s.procs[pid].req.uid, s.procs[pid].req.other)
    ensures Next(cfg, {}, s, e, pid, Done) && e.t == InsertFriendRoom(s.t, pair.uid1, pair.uid2, s.now)
  {
    e := Writes(cfg, {}, s, pid, Move(CreatePair(pair), Done));
  }

  lemma TwoRooms(t: Tables, pair: Friend, now: Time)
    ensures var t' := InsertFriendRoom(InsertFriendRoom(t, pair.uid1, pair.uid2, now), pair.uid1, pair.uid2, now);
            HasTwoRooms(t', pair) && !PairsUnique(t')
  {
    var t' := InsertFriendRoom(InsertFriendRoom(t, pair.uid1, pair.uid2, now), pair.uid1, pair.uid2, now);
    assert t'.friends[t.nextRoom] == t'.friends[t.nextRoom + 1] == pair;
  }
}
