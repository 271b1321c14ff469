/** The two layers agree, whichever calls fail. A request that nothing overlaps, and of whose
    calls only those to the cache fail, does to the tables and the log exactly what Chats.Step
    says; if others fail, it does an exactly known part of that. */
module InterleavedAlone {
  import opened Domain
  import opened Tables
  import opened MessageLog
  import opened MemberCaches
  import opened Interleaved
  import opened InterleavedSafety
  import opened InterleavedSolo
  import Chats
  import RoomStores

  // ----- Every run of one process -----

  // Calls by pid, whichever of them fail, lead from s to e.
  ghost predicate Alone(cfg: Config, b: seq<State>, acts: seq<Action>, pid: Pid, s: State, e: State) {
    && Trace(cfg, b, acts, s, e)
    && forall i :: 0 <= i < |acts| ==> acts[i].Call? && acts[i].pid == pid && pid in b[i].procs
  }

  // The calls that fail in such a run.
  ghost function FaultsOf(b: seq<State>, acts: seq<Action>, pid: Pid): Faults
    requires |b| == |acts| + 1
    requires forall i :: 0 <= i < |acts| ==> acts[i].Call? && pid in b[i].procs
  {
    set i | 0 <= i < |acts| && !acts[i].ok :: CallOf(b[i].procs[pid].pc)
  }

  function UseStage(use: Use): nat {
    match use
    case ForCheck => 0
    case ForRecall => 3
    case ForPush(_) => 4
    case ForTally => 9
  }

  // How far a request has come.
  function Stage(pc: Pc): nat {
    match pc
    case CacheGet(use, _) => UseStage(use) + 1
    case GetFriend(use, _) => UseStage(use) + 1
    case ListRows(use, _) => UseStage(use) + 2
    case CacheSet(use, _, _, _) => UseStage(use) + 3
    case Resolved(use, _, _, _) => UseStage(use) + 4
    case InsertHot(_) => 4
    case PushAll(_, _) => 8
    case TouchRow(_, _) => 9
    case ResetRow(_) => 14
    case FetchRole(_) => 1
    case MarkRow(_) => 2
    case FetchRoomOf(_) => 3
    case FetchTarget(_) => 1
    case Write => 2
    case Invalidate => 3
    case Done => 15
    case _ => 0
  }

  lemma MovesOn(s: State, p: Proc, ok: bool)
    requires !p.pc.Done?
    ensures Stage(p.pc) < Stage(MoveOf(s, p, ok).pc) <= 15
  {}

  lemma OneStagePerCall(pc: Pc, pc': Pc)
    requires !pc.Done? && !pc'.Done? && CallOf(pc) == CallOf(pc')
    ensures Stage(pc) == Stage(pc')
  {}

  lemma {:induction false} StagesRise(cfg: Config, b: seq<State>, acts: seq<Action>, pid: Pid, s: State, e: State,
                                      i: nat, j: nat)
    requires Alone(cfg, b, acts, pid, s, e) && i < j <= |acts|
    ensures pid in b[i].procs && pid in b[j].procs
    ensures Stage(b[i].procs[pid].pc) + (j - i) <= Stage(b[j].procs[pid].pc) <= 15
    decreases j
  {
    var k := j - 1;
    assert Leads(cfg, b[k], acts[k], b[k + 1]);
    MovesOn(b[k], b[k].procs[pid], acts[k].ok);
    if i < k { StagesRise(cfg, b, acts, pid, s, e, i, k); }
  }

  // A request left alone makes at most fifteen calls, and none of them twice; so naming the
  // calls that fail describes the run.
  lemma RunsHaveFaults(cfg: Config, b: seq<State>, acts: seq<Action>, pid: Pid, s: State, e: State)
    requires Alone(cfg, b, acts, pid, s, e)
    ensures |acts| <= 15 && SoloRun(cfg, FaultsOf(b, acts, pid), b, acts, pid, s, e)
  {
    if |acts| > 0 { StagesRise(cfg, b, acts, pid, s, e, 0, |acts|); }
    forall i | 0 <= i < |acts| ensures acts[i].ok <==> CallOf(b[i].procs[pid].pc) !in FaultsOf(b, acts, pid) {
      if CallOf(b[i].procs[pid].pc) in FaultsOf(b, acts, pid) {
        var j :| 0 <= j < |acts| && !acts[j].ok && CallOf(b[j].procs[pid].pc) == CallOf(b[i].procs[pid].pc);
        SameCall(cfg, b, acts, pid, s, e, i, j);
      }
    }
  }

  // And it always comes to an end: until then its next call can be made, and may fail or not.
  lemma RunsGoOn(cfg: Config, b: seq<State>, acts: seq<Action>, pid: Pid, s: State, e: State)
    requires Alone(cfg, b, acts, pid, s, e) && Running(cfg, s, pid)
    ensures pid in e.procs
    ensures !e.procs[pid].pc.Done? ==> forall ok :: Enabled(cfg, e, Call(pid, ok))
  {
    RunsHaveFaults(cfg, b, acts, pid, s, e);
    OthersWait(cfg, FaultsOf(b, acts, pid), s, pid, e);
  }

  lemma SameCall(cfg: Config, b: seq<State>, acts: seq<Action>, pid: Pid, s: State, e: State, i: nat, j: nat)
    requires Alone(cfg, b, acts, pid, s, e) && i < |acts| && j < |acts|
    requires CallOf(b[i].procs[pid].pc) == CallOf(b[j].procs[pid].pc)
    ensures i == j
  {
    assert Leads(cfg, b[i], acts[i], b[i + 1]) && Leads(cfg, b[j], acts[j], b[j + 1]);
    OneStagePerCall(b[i].procs[pid].pc, b[j].procs[pid].pc);
    if i < j { StagesRise(cfg, b, acts, pid, s, e, i, j); }
    if j < i { StagesRise(cfg, b, acts, pid, s, e, j, i); }
  }

  // With the same calls failing, one process has one course.
  lemma {:induction false} OneCourse(cfg: Config, f: Faults, b: seq<State>, acts: seq<Action>, b': seq<State>,
                                     acts': seq<Action>, pid: Pid, s: State, e: State, e': State, i: nat)
    requires SoloRun(cfg, f, b, acts, pid, s, e) && SoloRun(cfg, f, b', acts', pid, s, e')
    requires i <= |acts| && i <= |acts'|
    ensures b[i] == b'[i]
  {
    if i > 0 {
      OneCourse(cfg, f, b, acts, b', acts', pid, s, e, e', i - 1);
      assert Leads(cfg, b[i - 1], acts[i - 1], b[i - 1 + 1]);
      assert Leads(cfg, b'[i - 1], acts'[i - 1], b'[i - 1 + 1]);
    }
  }

  // So a process that has ended has ended in one state.
  lemma OneEnd(cfg: Config, f: Faults, s: State, pid: Pid, e: State, e': State)
    requires Reaches(cfg, f, s, pid, e) && Reaches(cfg, f, s, pid, e')
    requires pid in e.procs && e.procs[pid].pc.Done? && pid in e'.procs && e'.procs[pid].pc.Done?
    ensures e == e'
  {
    var b, acts :| SoloRun(cfg, f, b, acts, pid, s, e);
    var b', acts' :| SoloRun(cfg, f, b', acts', pid, s, e');
    var n := if |acts| < |acts'| then |acts| else |acts'|;
    OneCourse(cfg, f, b, acts, b', acts', pid, s, e, e', n);
    assert n < |acts| ==> Leads(cfg, b[n], acts[n], b[n + 1]);
    assert n < |acts'| ==> Leads(cfg, b'[n], acts'[n], b'[n + 1]);
  }

  // ----- Main results -----

  // What becomes of a request when the calls in f fail.
  ghost predicate EndsUnder(cfg: Config, f: Faults, s: State, pid: Pid, e: State, c: Chats.Chat)
    requires pid in s.procs
  {
    match s.procs[pid].req
    case SendReq(_, _, _) => SentUnder(cfg, f, s, pid, e)
    case RecallReq(_, _) => RecalledUnder(f, s, pid, e)
    case _ => DoneUnder(f, s, pid, e, c)
  }

  // The request can run to that end.
  ghost predicate CanEnd(cfg: Config, f: Faults, s: State, pid: Pid, c: Chats.Chat)
    requires pid in s.procs
  {
    exists e :: Reaches(cfg, f, s, pid, e) && EndsUnder(cfg, f, s, pid, e, c)
  }

  lemma EndOf(cfg: Config, f: Faults, s: State, pid: Pid, c: Chats.Chat) returns (e: State)
    requires Begins(cfg, s, pid) && c.t == s.t && c.m == s.m
    ensures Reaches(cfg, f, s, pid, e) && EndsUnder(cfg, f, s, pid, e, c)
    ensures pid in e.procs && e.procs[pid].pc.Done?
  {
    match s.procs[pid].req
    case SendReq(_, _, _) => e := SendAlone(cfg, f, s, pid);
    case RecallReq(_, _) => e := RecallAlone(cfg, f, s, pid);
    case _ => e := RoomRequestAlone(cfg, f, s, pid, c);
  }

  // Every way of failing is possible, and every run of a request left alone ends as it says.
  lemma AloneUnderFaults(cfg: Config, s: State, pid: Pid, c: Chats.Chat)
    requires Begins(cfg, s, pid) && c.t == s.t && c.m == s.m
    ensures forall f :: CanEnd(cfg, f, s, pid, c)
    ensures forall b, acts, e :: Alone(cfg, b, acts, pid, s, e) && pid in e.procs && e.procs[pid].pc.Done? ==>
              EndsUnder(cfg, FaultsOf(b, acts, pid), s, pid, e, c)
  {
    forall f ensures CanEnd(cfg, f, s, pid, c) {
      var e := EndOf(cfg, f, s, pid, c);
    }
    forall b, acts, e | Alone(cfg, b, acts, pid, s, e) && pid in e.procs && e.procs[pid].pc.Done?
      ensures EndsUnder(cfg, FaultsOf(b, acts, pid), s, pid, e, c)
    {
      var f := FaultsOf(b, acts, pid);
      RunsHaveFaults(cfg, b, acts, pid, s, e);
      var end := EndOf(cfg, f, s, pid, c);
      OneEnd(cfg, f, s, pid, e, end);
    }
  }

  // e is where the other layer says the request ends.
  ghost predicate AsSerial(f: Faults, s: State, pid: Pid, e: State, c: Chats.Chat)
    requires pid in s.procs
  {
    var after := Chats.Step(c, OpOf(s.procs[pid].req, s.now));
    Left(f, e, pid, after.t, after.m)
  }

  lemma SerialSend(c: Chats.Chat, req: Request, now: Time)
    requires req.SendReq? && Accepted(req)
    ensures var after := Chats.Step(c, OpOf(req, now));
            if req.room in c.t.rooms && IsParticipant(c.t, req.room, req.uid)
            then after.t == Chats.Track(c.t, req.room, req.uid, c.m.nextId, AtOnce(now))
                 && after.m == InsertMessage(c.m, Message(c.m.nextId, req.room, req.uid, req.content,
                                                          TYPE_TEXT, 0, false, None, now), now)
            else after == c
  {}

  lemma SerialRecall(c: Chats.Chat, req: Request, now: Time)
    requires req.RecallReq?
    ensures var after := Chats.Step(c, OpOf(req, now));
            if req.msg in c.m.rows
               && var msg := c.m.rows[req.msg];
                  CanRecall(msg.from, req.uid, Chats.ActingRole(c.t, msg.room, req.uid), msg.created, now)
            then after.t == c.t && after.m == MarkDeleted(c.m, req.msg)
            else after == c
  {}

  lemma SerialRoom(c: Chats.Chat, req: Request, now: Time)
    requires IsRoomRequest(req)
    ensures Chats.Step(c, OpOf(req, now)).m == c.m
  {}

  // Without failures of the tables a tally is the other layer's.
  lemma TrackedIsTrack(cfg: Config, f: Faults, t: Tables, dest: Dest, sender: Uid, id: MsgId, now: Time, live: bool)
    requires CacheOnly(f) && dest.room in t.rooms && dest == DestOf(t, dest.room)
    ensures Tracked(cfg, f, t, dest, sender, id, now, live) == Chats.Track(t, dest.room, sender, id, AtOnce(now))
  {
    assert Participants(Touch(t, dest.room, id, now), dest.room) == Participants(t, dest.room);
  }

  lemma SendAsSerial(cfg: Config, f: Faults, s: State, pid: Pid, e: State, c: Chats.Chat)
    requires Begins(cfg, s, pid) && s.procs[pid].req.SendReq? && c.t == s.t && c.m == s.m
    requires CacheOnly(f) && SentUnder(cfg, f, s, pid, e)
    ensures AsSerial(f, s, pid, e, c)
  {
    var req := s.procs[pid].req;
    SerialSend(c, req, s.now);
    if Stored(f, s, req) {
      var dest := DestOf(s.t, req.room);
      var live := LiveAfter(cfg, f, ForCheck, dest, Live(s, req.room));
      TrackedIsTrack(cfg, f, s.t, dest, req.uid, s.m.nextId, s.now, live);
    }
  }

  lemma RecallAsSerial(f: Faults, s: State, pid: Pid, e: State, c: Chats.Chat)
    requires pid in s.procs && s.procs[pid].req.RecallReq? && c.t == s.t && c.m == s.m
    requires CacheOnly(f) && RecalledUnder(f, s, pid, e)
    ensures AsSerial(f, s, pid, e, c)
  {
    SerialRecall(c, s.procs[pid].req, s.now);
  }

  lemma RoomAsSerial(f: Faults, s: State, pid: Pid, e: State, c: Chats.Chat)
    requires pid in s.procs && IsRoomRequest(s.procs[pid].req) && c.t == s.t && c.m == s.m
    requires CacheOnly(f) && DoneUnder(f, s, pid, e, c)
    ensures AsSerial(f, s, pid, e, c)
  {
    SerialRoom(c, s.procs[pid].req, s.now);
  }

  lemma CacheFaultsAreSerial(cfg: Config, f: Faults, s: State, pid: Pid, e: State, c: Chats.Chat)
    requires Begins(cfg, s, pid) && c.t == s.t && c.m == s.m
    requires CacheOnly(f) && EndsUnder(cfg, f, s, pid, e, c)
    ensures AsSerial(f, s, pid, e, c)
  {
    match s.procs[pid].req
    case SendReq(_, _, _) => SendAsSerial(cfg, f, s, pid, e, c);
    case RecallReq(_, _) => RecallAsSerial(f, s, pid, e, c);
    case _ => RoomAsSerial(f, s, pid, e, c);
  }

  // Failures of the cache are invisible. Whichever request it is, whatever sound state it meets
  // and whichever of its cache calls fail, when its other calls succeed one after the other it
  // comes to an end, and wherever it ends the tables and the log are what the one-at-a-time
  // layer says; and the cache tells the truth unless an invalidation was lost.
  lemma AloneIsSerial(cfg: Config, s: State, pid: Pid, c: Chats.Chat)
    requires Begins(cfg, s, pid) && c.t == s.t && c.m == s.m
    ensures forall f :: CacheOnly(f) ==> exists e :: Reaches(cfg, f, s, pid, e) && AsSerial(f, s, pid, e, c)
    ensures forall b, acts, e :: Alone(cfg, b, acts, pid, s, e) && pid in e.procs && e.procs[pid].pc.Done?
                                 && CacheOnly(FaultsOf(b, acts, pid)) ==>
              AsSerial(FaultsOf(b, acts, pid), s, pid, e, c)
  {
    AloneUnderFaults(cfg, s, pid, c);
    forall f | CacheOnly(f) ensures exists e :: Reaches(cfg, f, s, pid, e) && AsSerial(f, s, pid, e, c) {
      assert CanEnd(cfg, f, s, pid, c);
      var e :| Reaches(cfg, f, s, pid, e) && EndsUnder(cfg, f, s, pid, e, c);
      CacheFaultsAreSerial(cfg, f, s, pid, e, c);
    }
    forall b, acts, e | Alone(cfg, b, acts, pid, s, e) && pid in e.procs && e.procs[pid].pc.Done?
                        && CacheOnly(FaultsOf(b, acts, pid))
      ensures AsSerial(FaultsOf(b, acts, pid), s, pid, e, c)
    {
      CacheFaultsAreSerial(cfg, FaultsOf(b, acts, pid), s, pid, e, c);
    }
  }
}
