/** Unread counters under every interleaving: one message raises a counter at most once. */
module InterleavedCounters {
  import opened Domain
  import opened Tables
  import opened MessageLog
  import opened Interleaved
  import opened InterleavedSafety
  import opened InterleavedStaleness
  import opened InterleavedLog

  // Another's send to room r that has stored its message and may yet raise u's counter.
  ghost predicate Owes(p: Proc, u: Uid, r: RoomId) {
    p.req.uid != u &&
    match p.pc
    case CacheGet(use, dest) => dest.room == r && AfterStore(use)
    case ListRows(use, dest) => dest.room == r && AfterStore(use)
    case CacheSet(use, dest, _, _) => dest.room == r && AfterStore(use)
    case GetFriend(use, dest) => dest.room == r && AfterStore(use)
    case Resolved(use, dest, _, _) => dest.room == r && AfterStore(use)
    case PushAll(dest, _) => dest.room == r
    case TouchRow(dest, _) => dest.room == r
    case _ => false
  }

  predicate AfterStore(use: Use) {
    use.ForPush? || use.ForTally?
  }

  ghost function Owing(s: State, u: Uid, r: RoomId): set<Pid> {
    set pid | pid in s.procs && Owes(s.procs[pid], u, r)
  }

  // The messages others have stored in r since the log was m.
  ghost function StoredSince(m: MessageTable, m': MessageTable, u: Uid, r: RoomId): set<MsgId> {
    set id | id in m'.rows && id !in m.rows && m'.rows[id].room == r && m'.rows[id].from != u
  }

  ghost predicate StoresForOthers(stmt: Stmt, u: Uid, r: RoomId) {
    stmt.AppendMessage? && stmt.msg.room == r && stmt.msg.from != u
  }

  ghost predicate RaisesFor(stmt: Stmt, u: Uid, r: RoomId) {
    stmt.RaiseUnread? && stmt.room == r && u in stmt.uids
  }

  // A raise settles what its process owes; only a store makes it owe.
  lemma OwesAfter(s: State, p: Proc, ok: bool, u: Uid, r: RoomId)
    ensures var mv := MoveOf(s, p, ok);
            && (RaisesFor(mv.stmt, u, r) ==> Owes(p, u, r) && !Owes(p.(pc := mv.pc), u, r))
            && (Owes(p.(pc := mv.pc), u, r) ==> Owes(p, u, r) || StoresForOthers(mv.stmt, u, r))
  {
    if IsRoomCall(p.pc) { RoomCallsOwe(s, p, ok, u, r); }
  }

  lemma RoomCallsOwe(s: State, p: Proc, ok: bool, u: Uid, r: RoomId)
    requires IsRoomCall(p.pc)
    ensures !MoveOf(s, p, ok).stmt.RaiseUnread? && !Owes(p.(pc := MoveOf(s, p, ok).pc), u, r)
  {}

  lemma SmallerSet(a: set<nat>, b: set<nat>)
    requires a <= b
    ensures |a| <= |b|
  {
    assert b == a + (b - a);
  }

  // What one step does to the processes that owe, beside the raise and the store it makes.
  lemma OwingAfter(cfg: Config, s: State, a: Action, u: Uid, r: RoomId)
    requires Enabled(cfg, s, a)
    ensures var stmt := if a.Call? then MoveOf(s, s.procs[a.pid], a.ok).stmt else Nothing;
            |Owing(Apply(cfg, s, a), u, r)| + (if RaisesFor(stmt, u, r) then 1 else 0)
            <= |Owing(s, u, r)| + if StoresForOthers(stmt, u, r) then 1 else 0
  {
    var before, after := Owing(s, u, r), Owing(Apply(cfg, s, a), u, r);
    if a.Call? {
      OwesAfter(s, s.procs[a.pid], a.ok, u, r);
      var stmt := MoveOf(s, s.procs[a.pid], a.ok).stmt;
      if RaisesFor(stmt, u, r) {
        SmallerSet(after, before - {a.pid});
      } else if StoresForOthers(stmt, u, r) {
        SmallerSet(after, before + {a.pid});
      } else {
        SmallerSet(after, before);
      }
    } else {
      SmallerSet(after, before);
    }
  }

  lemma StoredAfter(m: MessageTable, m': MessageTable, now: Time, stmt: Stmt, u: Uid, r: RoomId)
    requires LogOk(m') && Grew(m, m')
    ensures |StoredSince(m, LogAfter(m', now, stmt), u, r)|
         >= |StoredSince(m, m', u, r)| + if StoresForOthers(stmt, u, r) then 1 else 0
  {
    var before, after := StoredSince(m, m', u, r), StoredSince(m, LogAfter(m', now, stmt), u, r);
    if StoresForOthers(stmt, u, r) {
      assert m'.nextId !in m'.rows && m'.nextId !in m.rows;
      SmallerSet(before + {m'.nextId}, after);
    } else {
      SmallerSet(before, after);
    }
  }

  lemma GrowthIsRaise(t: Tables, now: Time, stmt: Stmt, u: Uid, r: RoomId)
    requires Unread(TablesAfter(t, now, stmt).contacts, u, r) > Unread(t.contacts, u, r)
    ensures RaisesFor(stmt, u, r)
  {
    OnlyRaiseRaises(t, now, stmt, u, r);
    BumpCountsRepeats(t.contacts, stmt.room, stmt.uids, now, u, r);
  }

  // The statement of an action, nothing for those that make no call.
  function StmtOf(s: State, a: Action): Stmt {
    if a.Call? && a.pid in s.procs then MoveOf(s, s.procs[a.pid], a.ok).stmt else Nothing
  }

  lemma UnreadAfter(cfg: Config, b: seq<State>, acts: seq<Action>, i: nat, u: Uid, r: RoomId)
    requires Behaviour(cfg, b, acts) && i < |acts|
    ensures Unread(b[i + 1].t.contacts, u, r)
         <= Unread(b[i].t.contacts, u, r) + if RaisesFor(StmtOf(b[i], acts[i]), u, r) then 1 else 0
  {
    if Unread(b[i + 1].t.contacts, u, r) > Unread(b[i].t.contacts, u, r) {
      CountersGrowForParticipants(cfg, b, acts, i, u, r);
      assert Leads(cfg, b[i], acts[i], b[i + 1]);
      GrowthIsRaise(b[i].t, b[i].now, StmtOf(b[i], acts[i]), u, r);
    }
  }

  // Unread and still owed, against stored.
  ghost predicate Covered(b: seq<State>, i: nat, u: Uid, r: RoomId)
    requires 0 < |b| && i < |b|
  {
    Unread(b[i].t.contacts, u, r) + |Owing(b[i], u, r)|
    <= Unread(b[0].t.contacts, u, r) + |StoredSince(b[0].m, b[i].m, u, r)|
  }

  lemma CoveredNext(cfg: Config, b: seq<State>, acts: seq<Action>, i: nat, u: Uid, r: RoomId)
    requires Behaviour(cfg, b, acts) && i < |acts| && Covered(b, i, u, r)
    ensures Covered(b, i + 1, u, r)
  {
    UnreadAfter(cfg, b, acts, i, u, r);
    StepCovers(cfg, b, acts, i, u, r);
  }

  lemma StepCovers(cfg: Config, b: seq<State>, acts: seq<Action>, i: nat, u: Uid, r: RoomId)
    requires Behaviour(cfg, b, acts) && i < |acts|
    ensures var stmt := StmtOf(b[i], acts[i]);
            && |Owing(b[i + 1], u, r)| + (if RaisesFor(stmt, u, r) then 1 else 0)
               <= |Owing(b[i], u, r)| + (if StoresForOthers(stmt, u, r) then 1 else 0)
            && |StoredSince(b[0].m, b[i + 1].m, u, r)|
               >= |StoredSince(b[0].m, b[i].m, u, r)| + if StoresForOthers(stmt, u, r) then 1 else 0
  {
    BehaviourGrows(cfg, b, acts, 0, i);
    LogStaysOk(cfg, b, acts, i);
    assert Leads(cfg, b[i], acts[i], b[i + 1]);
    OwingAfter(cfg, b[i], acts[i], u, r);
    StoredAfter(b[0].m, b[i].m, b[i].now, StmtOf(b[i], acts[i]), u, r);
  }

  // Over a whole behaviour: what u has unread in r, with what sends still under way may add,
  // is no more than u had unread at the start and others have stored in r since.
  lemma {:induction false} CountersCovered(cfg: Config, b: seq<State>, acts: seq<Action>, k: nat, u: Uid, r: RoomId)
    requires Behaviour(cfg, b, acts) && k < |b|
    ensures Covered(b, k, u, r)
  {
    if k > 0 {
      CountersCovered(cfg, b, acts, k - 1, u, r);
      CoveredNext(cfg, b, acts, k - 1, u, r);
    } else {
      assert Owing(b[0], u, r) == {} && StoredSince(b[0].m, b[0].m, u, r) == {};
    }
  }

  // So no message raises a counter twice, whatever overlaps and whatever fails.
  lemma CountersBounded(cfg: Config, b: seq<State>, acts: seq<Action>, k: nat, u: Uid, r: RoomId)
    requires Behaviour(cfg, b, acts) && k < |b|
    ensures Unread(b[k].t.contacts, u, r)
         <= Unread(b[0].t.contacts, u, r) + |StoredSince(b[0].m, b[k].m, u, r)|
  {
    CountersCovered(cfg, b, acts, k, u, r);
  }
}
