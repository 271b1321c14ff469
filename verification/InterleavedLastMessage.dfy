/** The last-message id of a room when sends overlap: always that of a real message of the
    room, not always of the newest. */
module InterleavedLastMessage {
  import opened Domain
  import opened Tables
  import opened MessageLog
  import opened MemberCaches
  import opened Interleaved
  import opened InterleavedSafety
  import opened InterleavedSolo
  import Chats

  // The last-message id is 0 or that of a message of its own room, however sends overtake
  // each other.
  lemma LastMessagesAreReal(cfg: Config, b: seq<State>, acts: seq<Action>, i: nat, r: RoomId)
    requires Behaviour(cfg, b, acts) && i < |b| && r in b[i].t.rooms
    ensures b[i].t.rooms[r].lastMsgId == 0 || InRoom(b[i].m, b[i].t.rooms[r].lastMsgId, r)
  {
    BehaviourSafe(cfg, b, acts, i);
  }

  // ----- When a room names its newest message -----

  ghost predicate NamesNewest(s: State, r: RoomId) {
    r in s.t.rooms && s.t.rooms[r].lastMsgId == Newest(s.m, r)
  }

  // The step stores a message for room r.
  ghost predicate StoresFor(s: State, a: Action, r: RoomId) {
    && a.Call? && a.pid in s.procs
    && match MoveOf(s, s.procs[a.pid], a.ok).stmt
       case AppendMessage(msg) => msg.room == r
       case _ => false
  }

  // The step makes room r name a message.
  ghost predicate TouchesRoom(s: State, a: Action, r: RoomId) {
    && a.Call? && a.ok && a.pid in s.procs
    && s.procs[a.pid].pc.TouchRow? && s.procs[a.pid].pc.dest.room == r
  }

  // It does so in time: no later message of r is stored yet.
  ghost predicate TouchesInTime(s: State, a: Action, r: RoomId) {
    TouchesRoom(s, a, r) && forall id: MsgId :: InRoom(s.m, id, r) ==> id <= s.procs[a.pid].pc.id
  }

  lemma NewestIsGreatest(m: MessageTable, r: RoomId, id: MsgId)
    requires LogOk(m) && InRoom(m, id, r)
    ensures id == Newest(m, r) <==> forall other: MsgId :: InRoom(m, other, r) ==> other <= id
  {
    var all := Descending(Matching(m, r, 0));
    assert id in Matching(m, r, 0) && id in all && all[0] in all;
    forall other: MsgId | InRoom(m, other, r) ensures other <= all[0] {
      assert other in Matching(m, r, 0);
      assert other in all;
    }
    assert InRoom(m, all[0], r);
  }

  // Storing a message always leaves the room naming an older one; touching it puts that right
  // exactly when in time; no other step matters.
  lemma NamesNewestAfter(cfg: Config, s: State, a: Action, r: RoomId)
    requires StateOk(s) && Enabled(cfg, s, a) && r in s.t.rooms
    ensures NamesNewest(Apply(cfg, s, a), r)
       <==> if StoresFor(s, a, r) then false
            else if TouchesRoom(s, a, r) then TouchesInTime(s, a, r)
            else NamesNewest(s, r)
  {
    if a.Call? {
      var p := s.procs[a.pid];
      var stmt := MoveOf(s, p, a.ok).stmt;
      MoveSafe(s, p, a.ok);
      TouchComesFromTouchRow(s, p, a.ok);
      OnlyTouchMoves(s.t, s.now, stmt, r);
      NewestMoves(s.m, s.now, stmt, r);
      if TouchesRoom(s, a, r) { NewestIsGreatest(s.m, r, p.pc.id); }
      if StoresFor(s, a, r) { NamedBelow(s, r); }
    } else if a.SkipIds? {
      Chats.SkippingMovesNoHead(s.m, a.messages, r);
    }
  }

  lemma NamedBelow(s: State, r: RoomId)
    requires StateOk(s) && r in s.t.rooms
    ensures s.t.rooms[r].lastMsgId < s.m.nextId
  {
    assert s.t.rooms[r].lastMsgId == 0 || InRoom(s.m, s.t.rooms[r].lastMsgId, r);
  }

  lemma NewestMoves(m: MessageTable, now: Time, stmt: Stmt, r: RoomId)
    requires LogOk(m)
    ensures Newest(LogAfter(m, now, stmt), r) == if stmt.AppendMessage? && stmt.msg.room == r
              then m.nextId else Newest(m, r)
  {
    match stmt
    case AppendMessage(msg) => NewestAfter(m, msg, now, r, 0);
    case DeleteMessage(id) => NewestAfter(m, Message(0, 0, 0, "", 0, 0, false, None, 0), now, r, id);
    case _ =>
  }

  lemma TouchComesFromTouchRow(s: State, p: Proc, ok: bool)
    ensures var stmt := MoveOf(s, p, ok).stmt;
            && (stmt.TouchRoom? <==> ok && p.pc.TouchRow?)
            && (stmt.TouchRoom? ==> stmt == TouchRoom(p.pc.dest.room, p.pc.id))
  {}

  lemma OnlyTouchMoves(t: Tables, now: Time, stmt: Stmt, r: RoomId)
    requires WellFormed(t) && r in t.rooms
    ensures r in TablesAfter(t, now, stmt).rooms
    ensures TablesAfter(t, now, stmt).rooms[r].lastMsgId
         == if stmt.TouchRoom? && stmt.room == r then stmt.id else t.rooms[r].lastMsgId
  {}

  // A room names nothing, and rightly so, when it first appears.
  lemma NewRoomsNameNewest(cfg: Config, s: State, a: Action, r: RoomId)
    requires StateOk(s) && Enabled(cfg, s, a) && r !in s.t.rooms && r in Apply(cfg, s, a).t.rooms
    ensures NamesNewest(Apply(cfg, s, a), r)
  {
    assert a.Call?;
    var stmt := MoveOf(s, s.procs[a.pid], a.ok).stmt;
    RoomsAppearEmpty(s.t, s.now, stmt, r);
    NewestMoves(s.m, s.now, stmt, r);
    assert Matching(s.m, r, 0) == {};
  }

  lemma RoomsAppearEmpty(t: Tables, now: Time, stmt: Stmt, r: RoomId)
    requires r !in t.rooms && r in TablesAfter(t, now, stmt).rooms
    ensures stmt.CreateGroup? || stmt.CreatePair?
    ensures TablesAfter(t, now, stmt).rooms[r].lastMsgId == 0
  {}

  ghost predicate Quiet(b: seq<State>, acts: seq<Action>, r: RoomId, i: nat, k: nat)
    requires k <= |b| && k <= |acts|
  {
    forall j :: i <= j < k ==> !StoresFor(b[j], acts[j], r) && !TouchesRoom(b[j], acts[j], r)
  }

  // The last that happened to room r between i and k is a touch in time.
  ghost predicate TouchedLast(b: seq<State>, acts: seq<Action>, r: RoomId, i: nat, k: nat)
    requires k <= |b| && k <= |acts|
  {
    exists j :: i <= j < k && TouchesInTime(b[j], acts[j], r) && Quiet(b, acts, r, j + 1, k)
  }

  // Over a behaviour: the room names its newest message exactly when the last store or touch
  // of it was a touch in time, or there was none since it did.
  lemma {:induction false} NamesNewestIff(cfg: Config, b: seq<State>, acts: seq<Action>, r: RoomId, i: nat, k: nat)
    requires Behaviour(cfg, b, acts) && i <= k < |b| && r in b[i].t.rooms
    ensures NamesNewest(b[k], r)
       <==> (NamesNewest(b[i], r) && Quiet(b, acts, r, i, k)) || TouchedLast(b, acts, r, i, k)
    decreases k
  {
    if i < k {
      var n := k - 1;
      NamesNewestIff(cfg, b, acts, r, i, n);
      BehaviourLater(cfg, b, acts, i, n);
      NamesNewestNext(cfg, b, acts, r, n);
      OneMoreStep(b, acts, r, i, n);
    }
  }

  lemma NamesNewestNext(cfg: Config, b: seq<State>, acts: seq<Action>, r: RoomId, n: nat)
    requires Behaviour(cfg, b, acts) && n < |acts| && r in b[n].t.rooms
    ensures NamesNewest(b[n + 1], r)
       <==> TouchesInTime(b[n], acts[n], r)
            || (NamesNewest(b[n], r) && !StoresFor(b[n], acts[n], r) && !TouchesRoom(b[n], acts[n], r))
  {
    BehaviourSafe(cfg, b, acts, n);
    assert Leads(cfg, b[n], acts[n], b[n + 1]);
    NamesNewestAfter(cfg, b[n], acts[n], r);
    NotBoth(b[n], acts[n], r);
  }

  lemma NotBoth(s: State, a: Action, r: RoomId)
    ensures !(StoresFor(s, a, r) && TouchesRoom(s, a, r))
  {}

  lemma OneMoreStep(b: seq<State>, acts: seq<Action>, r: RoomId, i: nat, n: nat)
    requires i <= n < |b| && n < |acts|
    ensures Quiet(b, acts, r, i, n + 1)
       <==> Quiet(b, acts, r, i, n) && !StoresFor(b[n], acts[n], r) && !TouchesRoom(b[n], acts[n], r)
    ensures TouchedLast(b, acts, r, i, n + 1)
       <==> TouchesInTime(b[n], acts[n], r)
            || (TouchedLast(b, acts, r, i, n) && !StoresFor(b[n], acts[n], r) && !TouchesRoom(b[n], acts[n], r))
  {
    if TouchesInTime(b[n], acts[n], r) { assert Quiet(b, acts, r, n + 1, n + 1); }
    if TouchedLast(b, acts, r, i, n) && !StoresFor(b[n], acts[n], r) && !TouchesRoom(b[n], acts[n], r) {
      var j :| i <= j < n && TouchesInTime(b[j], acts[j], r) && Quiet(b, acts, r, j + 1, n);
      assert Quiet(b, acts, r, j + 1, n + 1);
    }
    if TouchedLast(b, acts, r, i, n + 1) {
      var j :| i <= j < n + 1 && TouchesInTime(b[j], acts[j], r) && Quiet(b, acts, r, j + 1, n + 1);
      assert j < n ==> Quiet(b, acts, r, j + 1, n);
    }
  }

  // ----- A run in which it does not -----

  // In any room, for any two uids who may post there: the first stores its message, the
  // second sends all of its own, and the first then goes on. No call fails, both are done,
  // both messages are there, and the room names the older one.
  lemma OverlappingSendsNameTheOlder(cfg: Config, s: State, r: RoomId, u: Uid, v: Uid) returns (e: State)
    requires Init(cfg, s) && r in s.t.rooms && IsParticipant(s.t, r, u) && IsParticipant(s.t, r, v)
    ensures Happens(cfg, s, e) && e.procs.Keys == {1, 2}
    ensures e.procs[1] == Proc(SendReq(u, r, "hi"), s.now, Done) && e.procs[2] == Proc(SendReq(v, r, "hi"), s.now, Done)
    ensures Says(e.m, s.m.nextId, r, u) && Says(e.m, s.m.nextId + 1, r, v)
    ensures r in e.t.rooms && e.t.rooms[r].lastMsgId == s.m.nextId && Newest(e.m, r) == s.m.nextId + 1
  {
    var dest, id := DestOf(s.t, r), s.m.nextId;
    var s1 := FirstStores(cfg, s, r, u);
    var s2 := SecondOvertakes(cfg, s1, dest, id, v);
    e := FirstGoesOn(cfg, s2, dest, id);
    ReachesOn(cfg, s, s1, s2);
    ReachesOn(cfg, s, s2, e);
    ReachableHappens(cfg, s, e);
  }

  lemma FirstGoesOn(cfg: Config, s: State, dest: Dest, id: MsgId) returns (e: State)
    requires Posting(cfg, s, 1, dest, id)
    ensures CanReach(cfg, s, e) && e.m == s.m && e.procs == s.procs[1 := s.procs[1].(pc := Done)]
    ensures dest.room in e.t.rooms && e.t.rooms[dest.room].lastMsgId == id
  {
    e := Completes(cfg, {}, s, 1, dest, id);
    OthersWait(cfg, {}, s, 1, e);
    TrackNames(cfg, s, dest, s.procs[1].req.uid, id);
  }

  ghost predicate Says(m: MessageTable, id: MsgId, r: RoomId, from: Uid) {
    id in m.rows && m.rows[id].room == r && m.rows[id].from == from
  }

  lemma SecondOvertakes(cfg: Config, s: State, dest: Dest, id: MsgId, v: Uid) returns (e: State)
    requires WellFormed(s.t) && LogOk(s.m) && Posting(cfg, s, 1, dest, id) && s.procs.Keys == {1}
    requires 0 < dest.room && id < s.m.nextId && IsParticipant(s.t, dest.room, v)
    ensures CanReach(cfg, s, e) && Posting(cfg, e, 1, dest, id) && e.procs[1] == s.procs[1] && e.now == s.now
    ensures e.procs.Keys == {1, 2} && e.procs[2] == Proc(SendReq(v, dest.room, "hi"), s.now, Done)
    ensures Says(e.m, s.m.nextId, dest.room, v) && Newest(e.m, dest.room) == s.m.nextId
    ensures forall u :: Says(s.m, id, dest.room, u) ==> Says(e.m, id, dest.room, u)
  {
    var s1 := OneStep(cfg, s, Arrive(2, SendReq(v, dest.room, "hi")));
    e := SendsAll(cfg, s1, 2, dest);
    OthersWait(cfg, {}, s1, 2, e);
    ReachesOn(cfg, s, s1, e);
    HelloIsNewest(s.m, dest.room, v, s.now);
  }

  lemma HelloIsNewest(m: MessageTable, r: RoomId, v: Uid, now: Time)
    requires LogOk(m)
    ensures var m' := InsertMessage(m, Hello(m.nextId, r, v, now), now);
            && LogOk(m') && m'.nextId == m.nextId + 1 && Says(m', m.nextId, r, v) && Newest(m', r) == m.nextId
            && forall id: MsgId, u: Uid :: id < m.nextId && Says(m, id, r, u) ==> Says(m', id, r, u)
  {
    StatementsGrow(m, Hello(m.nextId, r, v, now), now, 0, 0);
    NewestAfter(m, Hello(m.nextId, r, v, now), now, r, 0);
  }

  lemma FirstStores(cfg: Config, s: State, r: RoomId, u: Uid) returns (s': State)
    requires Init(cfg, s) && r in s.t.rooms && IsParticipant(s.t, r, u)
    ensures CanReach(cfg, s, s') && s'.now == s.now && s'.t == s.t && s'.procs.Keys == {1}
    ensures Posting(cfg, s', 1, DestOf(s.t, r), s.m.nextId)
    ensures s'.procs[1] == Proc(SendReq(u, r, "hi"), s.now, s'.procs[1].pc)
    ensures LogOk(s'.m) && s'.m.nextId == s.m.nextId + 1 && Says(s'.m, s.m.nextId, r, u)
  {
    var s1 := OneStep(cfg, s, Arrive(1, SendReq(u, r, "hi")));
    s' := Posts(cfg, {}, s1, 1, DestOf(s.t, r));
    OthersWait(cfg, {}, s1, 1, s');
    ReachesOn(cfg, s, s1, s');
    HelloIsNewest(s.m, r, u, s.now);
  }

  function Hello(id: MsgId, r: RoomId, from: Uid, now: Time): Message {
    Message(id, r, from, "hi", TYPE_TEXT, 0, false, None, now)
  }

  lemma SendsAll(cfg: Config, s: State, pid: Pid, dest: Dest) returns (e: State)
    requires Begins(cfg, s, pid) && s.procs[pid].req.SendReq? && s.procs[pid].req.room in s.t.rooms
    requires dest == DestOf(s.t, s.procs[pid].req.room) && IsParticipant(s.t, dest.room, s.procs[pid].req.uid)
    ensures Reaches(cfg, {}, s, pid, e) && pid in e.procs && e.procs[pid].pc.Done?
    ensures e.m == PostedLog(s, s.procs[pid].req.uid, dest.room, s.procs[pid].req.content)
    ensures DetailRows(e.t) && DestOk(e.t, dest) && Coherent(e.cache, e.t)
  {
    var s1 := Posts(cfg, {}, s, pid, dest);
    e := Completes(cfg, {}, s1, pid, dest, s.m.nextId);
    Onward(cfg, {}, s, pid, s1, e);
    TrackNames(cfg, s1, dest, s.procs[pid].req.uid, s.m.nextId);
  }

  lemma TrackNames(cfg: Config, s: State, dest: Dest, sender: Uid, id: MsgId)
    requires DetailRows(s.t) && DestOk(s.t, dest)
    ensures var t' := Tracked(cfg, {}, s.t, dest, sender, id, s.now, Live(s, dest.room));
            && DetailRows(t') && SamePeople(s.t, t') && DestOk(t', dest)
            && dest.room in t'.rooms && t'.rooms[dest.room].lastMsgId == id
  {
    var t' := Tracked(cfg, {}, s.t, dest, sender, id, s.now, Live(s, dest.room));
    assert t'.rooms == s.t.rooms[dest.room := s.t.rooms[dest.room].(activeTime := s.now, lastMsgId := id)];
    PeopleKeepRows(s.t, t');
  }
}
