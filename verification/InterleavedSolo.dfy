/** Requests that nothing overlaps, whichever of their calls fail: the course each kind of
    request takes, piece by piece. InterleavedAlone.dfy draws the conclusions. */
module InterleavedSolo {
  import opened Domain
  import opened Tables
  import opened MessageLog
  import opened MemberCaches
  import opened Interleaved
  import opened InterleavedSafety
  import Chats
  import RoomStores

  // The calls a request makes, each at most once (InterleavedAlone.RunsHaveFaults).
  datatype CallName =
    | RoomRow
    | CachedList(use: Use)
    | MemberList(use: Use)
    | CacheFill(use: Use)
    | PairRow(use: Use)
    | Append
    | Deliver
    | Recency
    | Raise
    | Clear
    | MessageRow
    | RecallerRow
    | Mark
    | RoomOfMessage
    | Notify
    | PairCheck
    | ActorRow
    | TargetRow
    | Change
    | Invalidation

  type Faults = set<CallName>

  function CallOf(pc: Pc): CallName {
    match pc
    case FetchRoom => RoomRow
    case CacheGet(use, _) => CachedList(use)
    case ListRows(use, _) => MemberList(use)
    case CacheSet(use, _, _, _) => CacheFill(use)
    case GetFriend(use, _) => PairRow(use)
    case Resolved(use, _, _, _) =>
      (match use
       case ForCheck => Append
       case ForPush(_) => Deliver
       case ForTally => Raise
       case ForRecall => Notify)
    case InsertHot(_) => Append
    case PushAll(_, _) => Deliver
    case TouchRow(_, _) => Recency
    case ResetRow(_) => Clear
    case FetchMessage => MessageRow
    case FetchRole(_) => RecallerRow
    case MarkRow(_) => Mark
    case FetchRoomOf(_) => RoomOfMessage
    case FindPair => PairCheck
    case FetchActor => ActorRow
    case FetchTarget(_) => TargetRow
    case Write => Change
    case _ => Invalidation
  }

  // Only calls to the cache fail.
  ghost predicate CacheOnly(f: Faults) {
    forall n :: n in f ==> n.CachedList? || n.CacheFill? || n.Invalidation?
  }

  ghost predicate Running(cfg: Config, s: State, pid: Pid) {
    pid in s.procs && s.now <= s.procs[pid].start + cfg.deadline
  }

  // Calls of process pid, and nothing else, lead from s to e; those named in f fail.
  ghost predicate SoloRun(cfg: Config, f: Faults, b: seq<State>, acts: seq<Action>, pid: Pid, s: State, e: State) {
    Trace(cfg, b, acts, s, e) && OnlyBy(f, b, acts, pid)
  }

  ghost predicate OnlyBy(f: Faults, b: seq<State>, acts: seq<Action>, pid: Pid)
    requires |b| == |acts| + 1
  {
    forall i :: 0 <= i < |acts| ==> pid in b[i].procs && acts[i] == Call(pid, CallOf(b[i].procs[pid].pc) !in f)
  }

  ghost predicate Reaches(cfg: Config, f: Faults, s: State, pid: Pid, e: State) {
    exists b, acts :: SoloRun(cfg, f, b, acts, pid, s, e)
  }

  lemma Onward(cfg: Config, f: Faults, s: State, pid: Pid, mid: State, e: State)
    requires Reaches(cfg, f, s, pid, mid) && Reaches(cfg, f, mid, pid, e)
    ensures Reaches(cfg, f, s, pid, e)
  {
    var b, acts :| SoloRun(cfg, f, b, acts, pid, s, mid);
    var b', acts' :| SoloRun(cfg, f, b', acts', pid, mid, e);
    TracesJoin(cfg, b, acts, b', acts', s, mid, e);
    var all: seq<State>, steps: seq<Action> := b + b'[1..], acts + acts';
    forall i | 0 <= i < |steps|
      ensures pid in all[i].procs && steps[i] == Call(pid, CallOf(all[i].procs[pid].pc) !in f)
    {
      assert all[i] == if i < |acts| then b[i] else b'[i - |acts|];
    }
    assert SoloRun(cfg, f, all, steps, pid, s, e);
  }

  // Meanwhile no time passes and every other process waits.
  lemma OthersWait(cfg: Config, f: Faults, s: State, pid: Pid, e: State)
    requires Reaches(cfg, f, s, pid, e)
    ensures e.now == s.now && e.procs.Keys == s.procs.Keys && (f == {} ==> CanReach(cfg, s, e))
    ensures forall q :: q in s.procs && q != pid ==> e.procs[q] == s.procs[q]
    ensures pid in s.procs ==> e.procs[pid] == s.procs[pid].(pc := e.procs[pid].pc)
  {
    var b, acts :| SoloRun(cfg, f, b, acts, pid, s, e);
    WaitUpTo(cfg, f, b, acts, pid, s, e, |acts|);
    assert f == {} ==> NoneFails(acts);
  }

  lemma {:induction false} WaitUpTo(cfg: Config, f: Faults, b: seq<State>, acts: seq<Action>, pid: Pid, s: State,
                                    e: State, i: nat)
    requires SoloRun(cfg, f, b, acts, pid, s, e) && i <= |acts|
    ensures b[i].now == s.now && b[i].procs.Keys == s.procs.Keys
    ensures forall q :: q in s.procs && q != pid ==> b[i].procs[q] == s.procs[q]
    ensures pid in s.procs ==> b[i].procs[pid] == s.procs[pid].(pc := b[i].procs[pid].pc)
  {
    if i > 0 {
      WaitUpTo(cfg, f, b, acts, pid, s, e, i - 1);
      assert Leads(cfg, b[i - 1], acts[i - 1], b[i - 1 + 1]);
    }
  }

  ghost predicate Ended(e: State, pid: Pid, t: Tables, m: MessageTable) {
    pid in e.procs && e.procs[pid].pc.Done? && e.t == t && e.m == m
  }

  ghost predicate Finished(e: State, pid: Pid, t: Tables, m: MessageTable) {
    Ended(e, pid, t, m) && Coherent(e.cache, t)
  }

  // The request of a process as the other layer sees it, all at one instant.
  function OpOf(req: Request, now: Time): Chats.Op {
    match req
    case SendReq(uid, room, content) => Chats.Send(uid, Text(room, content), AtOnce(now))
    case RecallReq(uid, msg) => Chats.Recall(uid, msg, Chats.RecallTimes(now, now))
    case MarkReadReq(uid, room) => Chats.MarkRead(uid, room, now)
    case FriendReq(uid, other) => Chats.CreateFriendRoom(uid, other, now)
    case GroupReq(uid, name, avatar) => Chats.CreateGroup(uid, name, avatar, now)
    case AddReq(uid, group, target) => Chats.AddMember(uid, group, target)
    case RemoveReq(uid, group, target) => Chats.RemoveMember(uid, group, target)
    case ExitReq(uid, group) => Chats.ExitGroup(uid, group)
    case AdminReq(uid, group, target, isAdmin) => Chats.SetAdmin(uid, group, target, isAdmin)
  }

  function Text(room: RoomId, content: string): Chats.SendRequest {
    Chats.SendRequest(room, content, TYPE_TEXT, 0, None)
  }

  function AtOnce(now: Time): Chats.SendTimes {
    Chats.SendTimes(now, now, now, now, now, now, now, now)
  }

  // ----- One call -----

  // A call by pid, alone, has led from s to s' and on to pc.
  ghost predicate Next(cfg: Config, f: Faults, s: State, s': State, pid: Pid, pc: Pc) {
    && Running(cfg, s, pid) && Running(cfg, s', pid)
    && s'.now == s.now && s'.procs[pid] == s.procs[pid].(pc := pc)
    && Reaches(cfg, f, s, pid, s')
  }

  ghost predicate Works(f: Faults, s: State, pid: Pid)
    requires pid in s.procs
  {
    CallOf(s.procs[pid].pc) !in f
  }

  lemma OneCall(cfg: Config, f: Faults, s: State, pid: Pid, mv: Move) returns (s': State)
    requires Running(cfg, s, pid) && !s.procs[pid].pc.Done? && MoveOf(s, s.procs[pid], Works(f, s, pid)) == mv
    ensures Next(cfg, f, s, s', pid, mv.pc)
    ensures s'.t == TablesAfter(s.t, s.now, mv.stmt) && s'.m == LogAfter(s.m, s.now, mv.stmt)
    ensures s'.cache == CacheAfter(cfg, s.cache, s.now, mv.stmt)
  {
    var a := Call(pid, Works(f, s, pid));
    s' := Apply(cfg, s, a);
    assert SoloRun(cfg, f, [s, s'], [a], pid, s, s');
  }

  // A call that changes nothing.
  lemma Reads(cfg: Config, f: Faults, s: State, pid: Pid, pc: Pc) returns (s': State)
    requires Running(cfg, s, pid) && !s.procs[pid].pc.Done?
    requires MoveOf(s, s.procs[pid], Works(f, s, pid)) == Move(Nothing, pc)
    ensures Next(cfg, f, s, s', pid, pc) && s'.t == s.t && s'.m == s.m && s'.cache == s.cache
  {
    s' := OneCall(cfg, f, s, pid, Move(Nothing, pc));
  }

  // ----- Looking recipients up -----

  ghost predicate Fit(cfg: Config, s: State, pid: Pid, dest: Dest) {
    && Running(cfg, s, pid) && DetailRows(s.t) && Coherent(s.cache, s.t)
    && DestOk(s.t, dest) && !dest.hot
  }

  predicate Live(s: State, g: RoomId) {
    g in s.cache && s.now < s.cache[g].expiry
  }

  // Whether a lookup finds the recipients: a group's in a live entry or in the table, a
  // pair's in its row.
  predicate Answers(f: Faults, use: Use, dest: Dest, live: bool) {
    if dest.kind.FriendRoom? then PairRow(use) !in f
    else (live && CachedList(use) !in f) || MemberList(use) !in f
  }

  // Whether the group has a live entry afterwards, given whether it had one.
  predicate LiveAfter(cfg: Config, f: Faults, use: Use, dest: Dest, live: bool) {
    if dest.kind.FriendRoom? || (live && CachedList(use) !in f) || MemberList(use) in f || CacheFill(use) in f then live
    else 0 < cfg.ttl
  }

  // The lookup is over. Unless it has failed, s' holds a list that names each participant once.
  ghost predicate Found(cfg: Config, f: Faults, s: State, s': State, pid: Pid, use: Use, dest: Dest) {
    && Fit(cfg, s', pid, dest) && s'.now == s.now && s'.t == s.t && s'.m == s.m
    && pid in s.procs && s'.procs[pid].req == s.procs[pid].req
    && Live(s', dest.room) == LiveAfter(cfg, f, use, dest, Live(s, dest.room))
    && if Answers(f, use, dest, Live(s, dest.room))
       then Holds(s'.procs[pid].pc, use, dest, Participants(s.t, dest.room))
       else s'.procs[pid].pc == Unresolved(use, dest)
  }

  ghost predicate Holds(pc: Pc, use: Use, dest: Dest, us: set<Uid>) {
    pc.Resolved? && pc.use == use && pc.dest == dest && NoDup(pc.uids) && ToSet(pc.uids) == us
  }

  lemma LooksUp(cfg: Config, f: Faults, s: State, pid: Pid, use: Use, dest: Dest) returns (s': State)
    requires Fit(cfg, s, pid, dest) && s.procs[pid].pc == Lookup(use, dest)
    ensures Found(cfg, f, s, s', pid, use, dest) && Reaches(cfg, f, s, pid, s')
  {
    if dest.kind.FriendRoom? {
      s' := FindsPair(cfg, f, s, pid, use, dest);
    } else if Live(s, dest.room) && CachedList(use) !in f {
      s' := Hits(cfg, f, s, pid, use, dest);
    } else {
      s' := Misses(cfg, f, s, pid, use, dest);
    }
  }

  lemma FindsPair(cfg: Config, f: Faults, s: State, pid: Pid, use: Use, dest: Dest) returns (s': State)
    requires Fit(cfg, s, pid, dest) && s.procs[pid].pc == GetFriend(use, dest) && dest.kind.FriendRoom?
    ensures Found(cfg, f, s, s', pid, use, dest) && Reaches(cfg, f, s, pid, s')
  {
    if PairRow(use) in f {
      s' := Reads(cfg, f, s, pid, Unresolved(use, dest));
    } else {
      var pair := s.t.friends[dest.room];
      s' := Reads(cfg, f, s, pid, Resolved(use, dest, [pair.uid1, pair.uid2], s.now));
      assert ToSet([pair.uid1, pair.uid2]) == Participants(s.t, dest.room);
    }
  }

  lemma Hits(cfg: Config, f: Faults, s: State, pid: Pid, use: Use, dest: Dest) returns (s': State)
    requires Fit(cfg, s, pid, dest) && s.procs[pid].pc == CacheGet(use, dest) && dest.kind.GroupRoom?
    requires Live(s, dest.room) && CachedList(use) !in f
    ensures Found(cfg, f, s, s', pid, use, dest) && Reaches(cfg, f, s, pid, s')
  {
    s' := Reads(cfg, f, s, pid, Resolved(use, dest, s.cache[dest.room].uids, s.now));
  }

  // A miss and a failed cache read are the same: the table is asked.
  lemma Misses(cfg: Config, f: Faults, s: State, pid: Pid, use: Use, dest: Dest) returns (s': State)
    requires Fit(cfg, s, pid, dest) && s.procs[pid].pc == CacheGet(use, dest) && dest.kind.GroupRoom?
    requires !Live(s, dest.room) || CachedList(use) in f
    ensures Found(cfg, f, s, s', pid, use, dest) && Reaches(cfg, f, s, pid, s')
  {
    var s1 := FindsNone(cfg, f, s, pid, use, dest);
    if MemberList(use) in f {
      s' := Reads(cfg, f, s1, pid, Unresolved(use, dest));
      Onward(cfg, f, s, pid, s1, s');
    } else {
      var s2 := Lists(cfg, f, s1, pid, use, dest);
      s' := Keeps(cfg, f, s2, pid, use, dest);
      Onward(cfg, f, s, pid, s1, s2);
      Onward(cfg, f, s, pid, s2, s');
    }
  }

  // From a list just read from the table, whether or not the cache takes it.
  lemma Keeps(cfg: Config, f: Faults, s: State, pid: Pid, use: Use, dest: Dest) returns (s': State)
    requires Fit(cfg, s, pid, dest) && dest.kind.GroupRoom?
    requires s.procs[pid].pc == CacheSet(use, dest, UidsOf(Listing(s.t, dest.room)), s.now)
    ensures Reaches(cfg, f, s, pid, s') && Fit(cfg, s', pid, dest) && s'.now == s.now && s'.t == s.t && s'.m == s.m
    ensures s'.procs[pid].req == s.procs[pid].req
    ensures Live(s', dest.room) == if CacheFill(use) in f then Live(s, dest.room) else 0 < cfg.ttl
    ensures Holds(s'.procs[pid].pc, use, dest, Participants(s.t, dest.room))
  {
    var uids := UidsOf(Listing(s.t, dest.room));
    ListingIsMembership(s.t, dest.room);
    if CacheFill(use) in f {
      s' := Reads(cfg, f, s, pid, Resolved(use, dest, uids, s.now));
    } else {
      s' := Fills(cfg, f, s, pid, use, dest, uids);
      FillIsTrue(s.cache, s.t, dest.room, s'.cache[dest.room]);
    }
  }

  lemma FillIsTrue(cache: map<RoomId, Entry>, t: Tables, g: RoomId, entry: Entry)
    requires Coherent(cache, t) && g in t.groups && NoDup(entry.uids) && ToSet(entry.uids) == MemberUids(t, g)
    ensures Coherent(cache[g := entry], t)
  {}

  lemma FindsNone(cfg: Config, f: Faults, s: State, pid: Pid, use: Use, dest: Dest) returns (s': State)
    requires Running(cfg, s, pid) && s.procs[pid].pc == CacheGet(use, dest)
    requires !Live(s, dest.room) || CachedList(use) in f
    ensures Next(cfg, f, s, s', pid, ListRows(use, dest)) && s'.t == s.t && s'.m == s.m && s'.cache == s.cache
  {
    s' := Reads(cfg, f, s, pid, ListRows(use, dest));
  }

  lemma Lists(cfg: Config, f: Faults, s: State, pid: Pid, use: Use, dest: Dest) returns (s': State)
    requires Running(cfg, s, pid) && s.procs[pid].pc == ListRows(use, dest) && MemberList(use) !in f
    ensures Next(cfg, f, s, s', pid, CacheSet(use, dest, UidsOf(Listing(s.t, dest.room)), s.now))
    ensures s'.t == s.t && s'.m == s.m && s'.cache == s.cache
  {
    s' := Reads(cfg, f, s, pid, CacheSet(use, dest, UidsOf(Listing(s.t, dest.room)), s.now));
  }

  lemma Fills(cfg: Config, f: Faults, s: State, pid: Pid, use: Use, dest: Dest, uids: seq<Uid>) returns (s': State)
    requires Running(cfg, s, pid) && s.procs[pid].pc == CacheSet(use, dest, uids, s.now) && CacheFill(use) !in f
    ensures Next(cfg, f, s, s', pid, Resolved(use, dest, uids, s.now))
    ensures s'.t == s.t && s'.m == s.m && s'.cache == s.cache[dest.room := Entry(uids, s.now + cfg.ttl)]
  {
    s' := OneCall(cfg, f, s, pid, Move(Fill(dest.room, uids), Resolved(use, dest, uids, s.now)));
  }

  // Activity and counters matter to no lookup.
  lemma StillFit(cfg: Config, s: State, s': State, pid: Pid, dest: Dest)
    requires Fit(cfg, s, pid, dest) && Running(cfg, s', pid) && s'.cache == s.cache && SamePeople(s.t, s'.t)
    ensures Fit(cfg, s', pid, dest) && Participants(s'.t, dest.room) == Participants(s.t, dest.room)
  {}

  // ----- send -----

  // The counters after a message from sender, as far as the calls of the tally work.
  function Tallied(f: Faults, t: Tables, dest: Dest, sender: Uid, now: Time, live: bool): Tables {
    if !Answers(f, ForTally, dest, live) then t
    else
      var others := Participants(t, dest.room) - {sender};
      var raised := if Raise in f then t.contacts else BumpSet(t.contacts, dest.room, others, now);
      t.(contacts := if Clear in f then raised else ClearUnread(raised, sender, dest.room, now))
  }

  lemma Raises(cfg: Config, f: Faults, s: State, pid: Pid, dest: Dest, uids: seq<Uid>, at: Time) returns (s': State)
    requires Running(cfg, s, pid) && s.procs[pid].pc == Resolved(ForTally, dest, uids, at) && NoDup(uids)
    ensures Next(cfg, f, s, s', pid, ResetRow(dest)) && s'.m == s.m && s'.cache == s.cache
    ensures s'.t == if Raise in f then s.t
                    else s.t.(contacts := BumpSet(s.t.contacts, dest.room, ToSet(uids) - {s.procs[pid].req.uid}, s.now))
  {
    if Raise in f {
      s' := Reads(cfg, f, s, pid, ResetRow(dest));
    } else {
      var others := Except(uids, s.procs[pid].req.uid);
      ExceptIsSet(uids, s.procs[pid].req.uid);
      BumpRowsIsBumpSet(s.t.contacts, dest.room, others, s.now);
      s' := OneCall(cfg, f, s, pid, Move(RaiseUnread(dest.room, others), ResetRow(dest)));
    }
  }

  lemma Resets(cfg: Config, f: Faults, s: State, pid: Pid, dest: Dest) returns (s': State)
    requires Running(cfg, s, pid) && s.procs[pid].pc == ResetRow(dest)
    ensures Next(cfg, f, s, s', pid, Done) && s'.m == s.m && s'.cache == s.cache
    ensures s'.t == if Clear in f then s.t
                    else s.t.(contacts := ClearUnread(s.t.contacts, s.procs[pid].req.uid, dest.room, s.now))
  {
    var stmt := if Clear in f then Nothing else ResetUnread(s.procs[pid].req.uid, dest.room);
    s' := OneCall(cfg, f, s, pid, Move(stmt, Done));
  }

  lemma Tallies(cfg: Config, f: Faults, s: State, pid: Pid, dest: Dest) returns (e: State)
    requires Fit(cfg, s, pid, dest) && s.procs[pid].pc == Lookup(ForTally, dest)
    ensures Reaches(cfg, f, s, pid, e)
    ensures Finished(e, pid, Tallied(f, s.t, dest, s.procs[pid].req.uid, s.now, Live(s, dest.room)), s.m)
  {
    var s1 := LooksUp(cfg, f, s, pid, ForTally, dest);
    if Answers(f, ForTally, dest, Live(s, dest.room)) {
      var s2 := Raises(cfg, f, s1, pid, dest, s1.procs[pid].pc.uids, s1.procs[pid].pc.at);
      e := Resets(cfg, f, s2, pid, dest);
      Onward(cfg, f, s, pid, s1, s2);
      Onward(cfg, f, s, pid, s2, e);
      assert Coherent(e.cache, e.t);
    } else {
      e := s1;
    }
  }

  lemma {:induction false} ExceptIsSet(uids: seq<Uid>, u: Uid)
    requires NoDup(uids)
    ensures NoDup(Except(uids, u)) && ToSet(Except(uids, u)) == ToSet(uids) - {u}
  {
    if uids != [] {
      var n := |uids| - 1;
      assert uids == uids[..n] + [uids[n]];
      ExceptIsSet(uids[..n], u);
      Appended(Except(uids[..n], u), uids[n]);
    }
  }

  lemma Touches(cfg: Config, f: Faults, s: State, pid: Pid, dest: Dest, id: MsgId) returns (s': State)
    requires Running(cfg, s, pid) && s.procs[pid].pc == TouchRow(dest, id)
    ensures Next(cfg, f, s, s', pid, if dest.hot then Done else Lookup(ForTally, dest))
    ensures s'.m == s.m && s'.cache == s.cache
    ensures s'.t == if Recency in f then s.t else Touch(s.t, dest.room, id, s.now)
  {
    var stmt := if Recency in f then Nothing else TouchRoom(dest.room, id);
    s' := OneCall(cfg, f, s, pid, Move(stmt, if dest.hot then Done else Lookup(ForTally, dest)));
  }

  // Where the tables end after message id has been stored: the room is touched whether or not
  // the message could be pushed.
  function Tracked(cfg: Config, f: Faults, t: Tables, dest: Dest, sender: Uid, id: MsgId, now: Time, live: bool)
    : Tables
  {
    var touched := if Recency in f then t else Touch(t, dest.room, id, now);
    if dest.hot then touched
    else Tallied(f, touched, dest, sender, now, LiveAfter(cfg, f, ForPush(id), dest, live))
  }

  lemma Pushes(cfg: Config, f: Faults, s: State, pid: Pid, id: MsgId, dest: Dest) returns (e: State)
    requires Fit(cfg, s, pid, dest) && s.procs[pid].pc == Lookup(ForPush(id), dest)
    ensures Reaches(cfg, f, s, pid, e)
    ensures Finished(e, pid, Tracked(cfg, f, s.t, dest, s.procs[pid].req.uid, id, s.now, Live(s, dest.room)), s.m)
  {
    var s1 := LooksUp(cfg, f, s, pid, ForPush(id), dest);
    var s2 := s1;
    if Answers(f, ForPush(id), dest, Live(s, dest.room)) {
      s2 := PushedOn(cfg, f, s1, pid, id, dest);
      Onward(cfg, f, s, pid, s1, s2);
    }
    var s3 := Touches(cfg, f, s2, pid, dest, id);
    StillFit(cfg, s1, s3, pid, dest);
    e := Tallies(cfg, f, s3, pid, dest);
    Onward(cfg, f, s, pid, s2, s3);
    Onward(cfg, f, s, pid, s3, e);
  }

  lemma PushedOn(cfg: Config, f: Faults, s: State, pid: Pid, id: MsgId, dest: Dest) returns (s': State)
    requires Running(cfg, s, pid) && s.procs[pid].pc.Resolved? && s.procs[pid].pc.use == ForPush(id)
              && s.procs[pid].pc.dest == dest
    ensures Next(cfg, f, s, s', pid, TouchRow(dest, id)) && s'.t == s.t && s'.m == s.m && s'.cache == s.cache
  {
    s' := Reads(cfg, f, s, pid, TouchRow(dest, id));
  }

  // What a posted text does to the log.
  function PostedLog(s: State, uid: Uid, room: RoomId, content: string): MessageTable {
    InsertMessage(s.m, Message(s.m.nextId, room, uid, content, TYPE_TEXT, 0, false, None, s.now), s.now)
  }

  lemma Stores(cfg: Config, f: Faults, s: State, pid: Pid, dest: Dest) returns (s': State)
    requires Running(cfg, s, pid) && s.procs[pid].req.SendReq? && s.procs[pid].pc.Resolved? && Append !in f
    requires var pc := s.procs[pid].pc; pc.use == ForCheck && pc.dest == dest && s.procs[pid].req.uid in pc.uids
    ensures Next(cfg, f, s, s', pid, Lookup(ForPush(s.m.nextId), dest)) && s'.t == s.t && s'.cache == s.cache
    ensures s'.m == PostedLog(s, s.procs[pid].req.uid, dest.room, s.procs[pid].req.content)
  {
    s' := OneCall(cfg, f, s, pid, Move(NewText(s, s.procs[pid].req, dest), Lookup(ForPush(s.m.nextId), dest)));
  }

  lemma StoresHot(cfg: Config, f: Faults, s: State, pid: Pid, dest: Dest) returns (s': State)
    requires Running(cfg, s, pid) && s.procs[pid].req.SendReq? && s.procs[pid].pc == InsertHot(dest) && Append !in f
    ensures Next(cfg, f, s, s', pid, PushAll(dest, s.m.nextId)) && s'.t == s.t && s'.cache == s.cache
    ensures s'.m == PostedLog(s, s.procs[pid].req.uid, dest.room, s.procs[pid].req.content)
  {
    s' := OneCall(cfg, f, s, pid, Move(NewText(s, s.procs[pid].req, dest), PushAll(dest, s.m.nextId)));
  }

  lemma Fetches(cfg: Config, f: Faults, s: State, pid: Pid, dest: Dest) returns (s': State)
    requires Running(cfg, s, pid) && s.procs[pid].pc == FetchRoom && s.procs[pid].req.SendReq? && RoomRow !in f
    requires s.procs[pid].req.room in s.t.rooms && dest == DestOf(s.t, s.procs[pid].req.room)
    ensures Next(cfg, f, s, s', pid, if dest.hot then InsertHot(dest) else Lookup(ForCheck, dest))
    ensures s'.t == s.t && s'.m == s.m && s'.cache == s.cache
  {
    s' := Reads(cfg, f, s, pid, if dest.hot then InsertHot(dest) else Lookup(ForCheck, dest));
  }

  // A send that has stored its message `id` and has yet to push, touch and count it.
  ghost predicate Posting(cfg: Config, s: State, pid: Pid, dest: Dest, id: MsgId) {
    && Running(cfg, s, pid) && DetailRows(s.t) && Coherent(s.cache, s.t) && DestOk(s.t, dest)
    && s.procs[pid].pc == if dest.hot then PushAll(dest, id) else Lookup(ForPush(id), dest)
  }

  // Whether a send stores its message: the room is there and the sender may post in it, as
  // far as the calls that find this out work.
  ghost predicate Stored(f: Faults, s: State, req: Request)
    requires req.SendReq?
  {
    && RoomRow !in f && Append !in f && req.room in s.t.rooms
    && IsParticipant(s.t, req.room, req.uid)
    && (s.t.rooms[req.room].hot || Answers(f, ForCheck, DestOf(s.t, req.room), Live(s, req.room)))
  }

  // The first half of a send by someone who may post.
  lemma Posts(cfg: Config, f: Faults, s: State, pid: Pid, dest: Dest) returns (s': State)
    requires Begins(cfg, s, pid) && s.procs[pid].req.SendReq? && Stored(f, s, s.procs[pid].req)
    requires dest == DestOf(s.t, s.procs[pid].req.room)
    ensures Reaches(cfg, f, s, pid, s') && Posting(cfg, s', pid, dest, s.m.nextId)
    ensures s'.t == s.t && s'.m == PostedLog(s, s.procs[pid].req.uid, dest.room, s.procs[pid].req.content)
    ensures s'.now == s.now && s'.procs[pid].req == s.procs[pid].req
    ensures !dest.hot ==> Live(s', dest.room) == LiveAfter(cfg, f, ForCheck, dest, Live(s, dest.room))
  {
    var uid := s.procs[pid].req.uid;
    var s1 := Fetches(cfg, f, s, pid, dest);
    if dest.hot {
      s' := StoresHot(cfg, f, s1, pid, dest);
    } else {
      var s2 := LooksUp(cfg, f, s1, pid, ForCheck, dest);
      ParticipantsAreParticipants(s.t, dest.room, uid);
      assert uid in ToSet(s2.procs[pid].pc.uids);
      s' := Stores(cfg, f, s2, pid, dest);
      Onward(cfg, f, s1, pid, s2, s');
    }
    Onward(cfg, f, s, pid, s1, s');
  }

  // The second half, whatever has been stored meanwhile.
  lemma Completes(cfg: Config, f: Faults, s: State, pid: Pid, dest: Dest, id: MsgId) returns (e: State)
    requires Posting(cfg, s, pid, dest, id)
    ensures Reaches(cfg, f, s, pid, e)
    ensures Finished(e, pid, Tracked(cfg, f, s.t, dest, s.procs[pid].req.uid, id, s.now, Live(s, dest.room)), s.m)
  {
    if dest.hot {
      var s1 := Reads(cfg, f, s, pid, TouchRow(dest, id));
      e := Touches(cfg, f, s1, pid, dest, id);
      Onward(cfg, f, s, pid, s1, e);
      assert Coherent(e.cache, e.t);
    } else {
      e := Pushes(cfg, f, s, pid, id, dest);
    }
  }

  // A send that stores nothing.
  lemma Denied(cfg: Config, f: Faults, s: State, pid: Pid) returns (e: State)
    requires Begins(cfg, s, pid) && s.procs[pid].req.SendReq? && !Stored(f, s, s.procs[pid].req)
    ensures Reaches(cfg, f, s, pid, e) && Finished(e, pid, s.t, s.m)
  {
    var req := s.procs[pid].req;
    if RoomRow in f || req.room !in s.t.rooms {
      e := Reads(cfg, f, s, pid, Done);
    } else {
      var dest := DestOf(s.t, req.room);
      var s1 := Fetches(cfg, f, s, pid, dest);
      if dest.hot {
        e := Reads(cfg, f, s1, pid, Done);
      } else {
        e := TurnedAway(cfg, f, s1, pid, dest);
      }
      Onward(cfg, f, s, pid, s1, e);
    }
  }

  lemma TurnedAway(cfg: Config, f: Faults, s: State, pid: Pid, dest: Dest) returns (e: State)
    requires Fit(cfg, s, pid, dest) && s.procs[pid].pc == Lookup(ForCheck, dest) && s.procs[pid].req.SendReq?
    requires Answers(f, ForCheck, dest, Live(s, dest.room)) && Append !in f ==>
               !IsParticipant(s.t, dest.room, s.procs[pid].req.uid)
    ensures Reaches(cfg, f, s, pid, e) && Finished(e, pid, s.t, s.m)
  {
    var uid := s.procs[pid].req.uid;
    var s1 := LooksUp(cfg, f, s, pid, ForCheck, dest);
    if Answers(f, ForCheck, dest, Live(s, dest.room)) {
      ParticipantsAreParticipants(s.t, dest.room, uid);
      assert uid in ToSet(s1.procs[pid].pc.uids) <==> uid in s1.procs[pid].pc.uids;
      e := Reads(cfg, f, s1, pid, Done);
      Onward(cfg, f, s, pid, s1, e);
    } else {
      e := s1;
    }
  }

  // A request about to make its first call in a sound state.
  ghost predicate Begins(cfg: Config, s: State, pid: Pid) {
    && Running(cfg, s, pid) && WellFormed(s.t) && LogOk(s.m) && Coherent(s.cache, s.t)
    && Accepted(s.procs[pid].req) && s.procs[pid].pc == FirstCall(s.procs[pid].req)
  }

  // Where a send ends.
  ghost predicate SentUnder(cfg: Config, f: Faults, s: State, pid: Pid, e: State)
    requires pid in s.procs && s.procs[pid].req.SendReq?
  {
    var req := s.procs[pid].req;
    if Stored(f, s, req) then
      var dest := DestOf(s.t, req.room);
      var live := LiveAfter(cfg, f, ForCheck, dest, Live(s, req.room));
      Finished(e, pid, Tracked(cfg, f, s.t, dest, req.uid, s.m.nextId, s.now, live),
               PostedLog(s, req.uid, req.room, req.content))
    else
      Finished(e, pid, s.t, s.m)
  }

  lemma SendAlone(cfg: Config, f: Faults, s: State, pid: Pid) returns (e: State)
    requires Begins(cfg, s, pid) && s.procs[pid].req.SendReq?
    ensures Reaches(cfg, f, s, pid, e) && SentUnder(cfg, f, s, pid, e)
  {
    var req := s.procs[pid].req;
    if Stored(f, s, req) {
      var dest := DestOf(s.t, req.room);
      var s1 := Posts(cfg, f, s, pid, dest);
      e := Completes(cfg, f, s1, pid, dest, s.m.nextId);
      Onward(cfg, f, s, pid, s1, e);
    } else {
      e := Denied(cfg, f, s, pid);
    }
  }

  // ----- recall -----

  // The role recall acts under: an ordinary member's if the row cannot be read.
  function RoleSeen(f: Faults, t: Tables, room: RoomId, u: Uid): Role {
    if RecallerRow !in f && (room, u) in t.members then t.members[(room, u)].role else Member
  }

  ghost predicate RecalledUnder(f: Faults, s: State, pid: Pid, e: State)
    requires pid in s.procs && s.procs[pid].req.RecallReq?
  {
    var uid, id := s.procs[pid].req.uid, s.procs[pid].req.msg;
    if MessageRow !in f && Mark !in f && id in s.m.rows
       && CanRecall(s.m.rows[id].from, uid, RoleSeen(f, s.t, s.m.rows[id].room, uid), s.m.rows[id].created, s.now)
    then Finished(e, pid, s.t, MarkDeleted(s.m, id))
    else Finished(e, pid, s.t, s.m)
  }

  lemma RecallAlone(cfg: Config, f: Faults, s: State, pid: Pid) returns (e: State)
    requires Begins(cfg, s, pid) && s.procs[pid].req.RecallReq?
    ensures Reaches(cfg, f, s, pid, e) && RecalledUnder(f, s, pid, e)
  {
    var req := s.procs[pid].req;
    if MessageRow in f || req.msg !in s.m.rows {
      e := Reads(cfg, f, s, pid, Done);
    } else {
      var msg := s.m.rows[req.msg];
      var s1 := Reads(cfg, f, s, pid, FetchRole(msg));
      e := Decides(cfg, f, s1, pid, msg);
      Onward(cfg, f, s, pid, s1, e);
    }
  }

  lemma Decides(cfg: Config, f: Faults, s: State, pid: Pid, msg: Message) returns (e: State)
    requires Running(cfg, s, pid) && DetailRows(s.t) && Coherent(s.cache, s.t) && s.procs[pid].pc == FetchRole(msg)
    ensures Reaches(cfg, f, s, pid, e)
    ensures var uid := s.procs[pid].req.uid;
            Finished(e, pid, s.t,
              if Mark !in f && CanRecall(msg.from, uid, RoleSeen(f, s.t, msg.room, uid), msg.created, s.now)
              then MarkDeleted(s.m, msg.id) else s.m)
  {
    var uid := s.procs[pid].req.uid;
    var may := CanRecall(msg.from, uid, RoleSeen(f, s.t, msg.room, uid), msg.created, s.now);
    var s1 := Reads(cfg, f, s, pid, if may then MarkRow(msg) else Done);
    if may {
      e := Retracts(cfg, f, s1, pid, msg);
      Onward(cfg, f, s, pid, s1, e);
    } else {
      e := s1;
    }
  }

  lemma Retracts(cfg: Config, f: Faults, s: State, pid: Pid, msg: Message) returns (e: State)
    requires Running(cfg, s, pid) && DetailRows(s.t) && Coherent(s.cache, s.t) && s.procs[pid].pc == MarkRow(msg)
    ensures Reaches(cfg, f, s, pid, e)
    ensures Finished(e, pid, s.t, if Mark in f then s.m else MarkDeleted(s.m, msg.id))
  {
    if Mark in f {
      e := Reads(cfg, f, s, pid, Done);
    } else {
      var s1 := OneCall(cfg, f, s, pid, Move(DeleteMessage(msg.id), FetchRoomOf(msg)));
      e := Announces(cfg, f, s1, pid, msg);
      Onward(cfg, f, s, pid, s1, e);
    }
  }

  lemma Announces(cfg: Config, f: Faults, s: State, pid: Pid, msg: Message) returns (e: State)
    requires Running(cfg, s, pid) && DetailRows(s.t) && Coherent(s.cache, s.t) && s.procs[pid].pc == FetchRoomOf(msg)
    ensures Reaches(cfg, f, s, pid, e) && Finished(e, pid, s.t, s.m)
  {
    if RoomOfMessage in f || msg.room !in s.t.rooms || s.t.rooms[msg.room].hot {
      e := Reads(cfg, f, s, pid, Done);
    } else {
      var dest := DestOf(s.t, msg.room);
      var s1 := Reads(cfg, f, s, pid, Lookup(ForRecall, dest));
      var s2 := LooksUp(cfg, f, s1, pid, ForRecall, dest);
      Onward(cfg, f, s, pid, s1, s2);
      if Answers(f, ForRecall, dest, Live(s, dest.room)) {
        e := Reads(cfg, f, s2, pid, Done);
        Onward(cfg, f, s, pid, s2, e);
      } else {
        e := s2;
      }
    }
  }

  // ----- Room requests -----

  // The table calls a room request needs.
  function Needed(req: Request): Faults {
    match req
    case MarkReadReq(_, _) => {Change}
    case GroupReq(_, _, _) => {Change}
    case FriendReq(_, _) => {PairCheck, Change}
    case RemoveReq(_, _, _) => {ActorRow, TargetRow, Change}
    case _ => {ActorRow, Change}
  }

  // A failed invalidation leaves the tables changed and the entry as it is.
  ghost predicate Left(f: Faults, e: State, pid: Pid, t: Tables, m: MessageTable) {
    Ended(e, pid, t, m) && (Invalidation !in f ==> Coherent(e.cache, t))
  }

  predicate IsRoomRequest(req: Request) {
    !req.SendReq? && !req.RecallReq?
  }

  // All or nothing: what the one-at-a-time layer says if the calls needed work.
  ghost predicate DoneUnder(f: Faults, s: State, pid: Pid, e: State, c: Chats.Chat)
    requires pid in s.procs
  {
    var req := s.procs[pid].req;
    Left(f, e, pid, if f !! Needed(req) then Chats.Step(c, OpOf(req, s.now)).t else s.t, s.m)
  }

  lemma Fails(cfg: Config, f: Faults, s: State, pid: Pid) returns (e: State)
    requires Running(cfg, s, pid) && Coherent(s.cache, s.t)
    requires IsRoomCall(s.procs[pid].pc) && CallOf(s.procs[pid].pc) in f
    ensures Reaches(cfg, f, s, pid, e) && Finished(e, pid, s.t, s.m)
  {
    e := Reads(cfg, f, s, pid, Done);
  }

  // The write of a room request, and the call after it.
  lemma Writes(cfg: Config, f: Faults, s: State, pid: Pid, mv: Move) returns (s': State)
    requires Running(cfg, s, pid) && s.procs[pid].pc.Write? && WriteMove(s, s.procs[pid].req) == mv && Change !in f
    ensures Next(cfg, f, s, s', pid, mv.pc) && s'.m == LogAfter(s.m, s.now, mv.stmt)
    ensures s'.t == TablesAfter(s.t, s.now, mv.stmt) && s'.cache == CacheAfter(cfg, s.cache, s.now, mv.stmt)
  {
    s' := OneCall(cfg, f, s, pid, mv);
  }

  lemma Drops(cfg: Config, f: Faults, s: State, pid: Pid, g: RoomId, before: Tables) returns (e: State)
    requires Running(cfg, s, pid) && s.procs[pid].pc.Invalidate? && Coherent(s.cache, before)
    requires match s.procs[pid].req
             case AddReq(_, group, _) => group == g
             case RemoveReq(_, group, _) => group == g
             case ExitReq(_, group) => group == g
             case _ => false
    requires before.groups.Keys <= s.t.groups.Keys && forall q :: q != g ==> MemberUids(s.t, q) == MemberUids(before, q)
    ensures Reaches(cfg, f, s, pid, e) && Left(f, e, pid, s.t, s.m)
  {
    e := OneCall(cfg, f, s, pid, Move(if Invalidation in f then Nothing else Drop(g), Done));
  }

  lemma MarkReadAlone(cfg: Config, f: Faults, s: State, pid: Pid, c: Chats.Chat) returns (e: State)
    requires Begins(cfg, s, pid) && s.procs[pid].req.MarkReadReq? && c.t == s.t && c.m == s.m
    ensures Reaches(cfg, f, s, pid, e) && DoneUnder(f, s, pid, e, c)
  {
    var req := s.procs[pid].req;
    if Change in f {
      e := Fails(cfg, f, s, pid);
    } else {
      e := Writes(cfg, f, s, pid, Move(ResetUnread(req.uid, req.room), Done));
      assert Coherent(e.cache, e.t);
    }
  }

  lemma GroupAlone(cfg: Config, f: Faults, s: State, pid: Pid, c: Chats.Chat) returns (e: State)
    requires Begins(cfg, s, pid) && s.procs[pid].req.GroupReq? && c.t == s.t && c.m == s.m
    ensures Reaches(cfg, f, s, pid, e) && DoneUnder(f, s, pid, e, c)
  {
    var req := s.procs[pid].req;
    if Change in f {
      e := Fails(cfg, f, s, pid);
    } else {
      e := Writes(cfg, f, s, pid, Move(CreateGroup(req.uid, req.name, req.avatar), Done));
      InsertGroupRoomMembers(s.t, req.uid, req.name, req.avatar, s.now);
      assert Coherent(e.cache, e.t);
    }
  }

  lemma FriendAlone(cfg: Config, f: Faults, s: State, pid: Pid, c: Chats.Chat) returns (e: State)
    requires Begins(cfg, s, pid) && s.procs[pid].req.FriendReq? && c.t == s.t && c.m == s.m
    ensures Reaches(cfg, f, s, pid, e) && DoneUnder(f, s, pid, e, c)
  {
    var pair := RoomStores.Canonical(s.procs[pid].req.uid, s.procs[pid].req.other);
    if PairCheck in f || pair in s.t.friends.Values {
      e := Reads(cfg, f, s, pid, Done);
    } else {
      var s1 := Reads(cfg, f, s, pid, Write);
      e := InsertsPair(cfg, f, s1, pid, pair);
      Onward(cfg, f, s, pid, s1, e);
    }
  }

  lemma InsertsPair(cfg: Config, f: Faults, s: State, pid: Pid, pair: Friend) returns (e: State)
    requires Running(cfg, s, pid) && WellFormed(s.t) && Coherent(s.cache, s.t) && s.procs[pid].pc.Write?
    requires var req := s.procs[pid].req; req.FriendReq? && pair == RoomStores.Canonical(req.uid, req.other)
    ensures Reaches(cfg, f, s, pid, e)
    ensures Finished(e, pid, if Change in f then s.t else InsertFriendRoom(s.t, pair.uid1, pair.uid2, s.now), s.m)
  {
    if Change in f {
      e := Fails(cfg, f, s, pid);
    } else {
      e := Writes(cfg, f, s, pid, Move(CreatePair(pair), Done));
      assert Coherent(e.cache, e.t);
    }
  }

  lemma Adds(cfg: Config, f: Faults, s: State, pid: Pid, g: RoomId, u: Uid) returns (e: State)
    requires Begins(cfg, s, pid) && s.procs[pid].req == AddReq(s.procs[pid].req.uid, g, u)
    ensures Reaches(cfg, f, s, pid, e)
    ensures Left(f, e, pid, if f !! {ActorRow, Change} && (g, s.procs[pid].req.uid) in s.t.members
                               && (g, u) !in s.t.members
                            then InsertMember(s.t, g, u, Member) else s.t, s.m)
  {
    if ActorRow in f || (g, s.procs[pid].req.uid) !in s.t.members {
      e := Reads(cfg, f, s, pid, Done);
    } else {
      var s1 := Reads(cfg, f, s, pid, Write);
      e := AddsRow(cfg, f, s1, pid, g, u);
      Onward(cfg, f, s, pid, s1, e);
    }
  }

  lemma AddsRow(cfg: Config, f: Faults, s: State, pid: Pid, g: RoomId, u: Uid) returns (e: State)
    requires Running(cfg, s, pid) && WellFormed(s.t) && Coherent(s.cache, s.t) && s.procs[pid].pc.Write?
    requires s.procs[pid].req == AddReq(s.procs[pid].req.uid, g, u) && g in s.t.groups
    ensures Reaches(cfg, f, s, pid, e)
    ensures Left(f, e, pid, if Change in f || (g, u) in s.t.members then s.t else InsertMember(s.t, g, u, Member), s.m)
  {
    if Change in f {
      e := Fails(cfg, f, s, pid);
    } else if (g, u) in s.t.members {
      e := Writes(cfg, f, s, pid, Move(AddRow(g, u), Done));
    } else {
      var s1 := Writes(cfg, f, s, pid, Move(AddRow(g, u), Invalidate));
      InsertMemberOk(s.t, g, u);
      e := Drops(cfg, f, s1, pid, g, s.t);
      Onward(cfg, f, s, pid, s1, e);
    }
  }

  lemma SerialAdd(c: Chats.Chat, req: Request, now: Time)
    requires req.AddReq? && Accepted(req)
    ensures var after, g := Chats.Step(c, OpOf(req, now)), req.group;
            after == if (g, req.uid) in c.t.members && (g, req.target) !in c.t.members
                     then c.(t := InsertMember(c.t, g, req.target, Member)) else c
  {}

  lemma AddAlone(cfg: Config, f: Faults, s: State, pid: Pid, c: Chats.Chat) returns (e: State)
    requires Begins(cfg, s, pid) && s.procs[pid].req.AddReq? && c.t == s.t && c.m == s.m
    ensures Reaches(cfg, f, s, pid, e) && DoneUnder(f, s, pid, e, c)
  {
    e := Adds(cfg, f, s, pid, s.procs[pid].req.group, s.procs[pid].req.target);
    SerialAdd(c, s.procs[pid].req, s.now);
  }

  // From a removal whose guards have held.
  lemma DeleteAlone(cfg: Config, f: Faults, s: State, pid: Pid, g: RoomId, u: Uid) returns (e: State)
    requires Running(cfg, s, pid) && WellFormed(s.t) && Coherent(s.cache, s.t) && s.procs[pid].pc.Write?
    requires match s.procs[pid].req
             case RemoveReq(_, group, target) => group == g && target == u
             case ExitReq(uid, group) => group == g && uid == u
             case _ => false
    ensures Reaches(cfg, f, s, pid, e) && Left(f, e, pid, if Change in f then s.t else DeleteMember(s.t, g, u), s.m)
  {
    if Change in f {
      e := Fails(cfg, f, s, pid);
    } else {
      var s1 := Writes(cfg, f, s, pid, Move(RemoveRow(g, u), Invalidate));
      DeleteMemberOk(s.t, g, u);
      e := Drops(cfg, f, s1, pid, g, s.t);
      Onward(cfg, f, s, pid, s1, e);
    }
  }

  predicate MayRemove(t: Tables, actor: Uid, g: RoomId, u: Uid) {
    && (g, actor) in t.members && (g, u) in t.members
    && CanRemoveMember(t.members[(g, actor)].role, t.members[(g, u)].role)
  }

  lemma Removes(cfg: Config, f: Faults, s: State, pid: Pid, g: RoomId, u: Uid) returns (e: State)
    requires Begins(cfg, s, pid) && s.procs[pid].req == RemoveReq(s.procs[pid].req.uid, g, u)
    ensures Reaches(cfg, f, s, pid, e)
    ensures Left(f, e, pid, if f !! {ActorRow, TargetRow, Change} && MayRemove(s.t, s.procs[pid].req.uid, g, u)
                            then DeleteMember(s.t, g, u) else s.t, s.m)
  {
    var actor := s.procs[pid].req.uid;
    if ActorRow in f || (g, actor) !in s.t.members {
      e := Reads(cfg, f, s, pid, Done);
    } else {
      var s1 := Reads(cfg, f, s, pid, FetchTarget(s.t.members[(g, actor)].role));
      e := ChecksTarget(cfg, f, s1, pid, g, u);
      Onward(cfg, f, s, pid, s1, e);
    }
  }

  lemma ChecksTarget(cfg: Config, f: Faults, s: State, pid: Pid, g: RoomId, u: Uid) returns (e: State)
    requires Running(cfg, s, pid) && WellFormed(s.t) && Coherent(s.cache, s.t)
    requires s.procs[pid].req == RemoveReq(s.procs[pid].req.uid, g, u) && (g, s.procs[pid].req.uid) in s.t.members
    requires s.procs[pid].pc == FetchTarget(s.t.members[(g, s.procs[pid].req.uid)].role)
    ensures Reaches(cfg, f, s, pid, e)
    ensures Left(f, e, pid, if f !! {TargetRow, Change} && MayRemove(s.t, s.procs[pid].req.uid, g, u)
                            then DeleteMember(s.t, g, u) else s.t, s.m)
  {
    if TargetRow in f || !MayRemove(s.t, s.procs[pid].req.uid, g, u) {
      e := Reads(cfg, f, s, pid, Done);
    } else {
      var s1 := Reads(cfg, f, s, pid, Write);
      e := DeleteAlone(cfg, f, s1, pid, g, u);
      Onward(cfg, f, s, pid, s1, e);
    }
  }

  lemma RemoveAlone(cfg: Config, f: Faults, s: State, pid: Pid, c: Chats.Chat) returns (e: State)
    requires Begins(cfg, s, pid) && s.procs[pid].req.RemoveReq? && c.t == s.t && c.m == s.m
    ensures Reaches(cfg, f, s, pid, e) && DoneUnder(f, s, pid, e, c)
  {
    e := Removes(cfg, f, s, pid, s.procs[pid].req.group, s.procs[pid].req.target);
  }

  lemma ExitAlone(cfg: Config, f: Faults, s: State, pid: Pid, c: Chats.Chat) returns (e: State)
    requires Begins(cfg, s, pid) && s.procs[pid].req.ExitReq? && c.t == s.t && c.m == s.m
    ensures Reaches(cfg, f, s, pid, e) && DoneUnder(f, s, pid, e, c)
  {
    var req := s.procs[pid].req;
    var may := (req.group, req.uid) in s.t.members && s.t.members[(req.group, req.uid)].role != Owner;
    if ActorRow in f || !may {
      e := Reads(cfg, f, s, pid, Done);
    } else {
      var s1 := Reads(cfg, f, s, pid, Write);
      e := DeleteAlone(cfg, f, s1, pid, req.group, req.uid);
      Onward(cfg, f, s, pid, s1, e);
    }
  }

  lemma RoleAlone(cfg: Config, f: Faults, s: State, pid: Pid, g: RoomId, u: Uid, role: Role) returns (e: State)
    requires Running(cfg, s, pid) && WellFormed(s.t) && Coherent(s.cache, s.t) && s.procs[pid].pc.Write?
    requires match s.procs[pid].req
             case AdminReq(_, group, target, isAdmin) =>
               group == g && target == u && role == if isAdmin then Admin else Member
             case _ => false
    ensures Reaches(cfg, f, s, pid, e)
    ensures Finished(e, pid, if Change in f then s.t else UpdateRole(s.t, g, u, role), s.m)
  {
    if Change in f {
      e := Fails(cfg, f, s, pid);
    } else {
      e := Writes(cfg, f, s, pid, Move(RoleRow(g, u, role), Done));
      UpdateRoleOk(s.t, g, u, role);
      assert Coherent(e.cache, e.t);
    }
  }

  lemma SerialAdmin(c: Chats.Chat, req: Request, now: Time)
    requires req.AdminReq?
    ensures var after, role := Chats.Step(c, OpOf(req, now)), if req.isAdmin then Admin else Member;
            after == if MaySetRoles(c.t, req.uid, req.group)
                     then c.(t := UpdateRole(c.t, req.group, req.target, role)) else c
  {}

  predicate MaySetRoles(t: Tables, actor: Uid, g: RoomId) {
    (g, actor) in t.members && CanSetAdmin(t.members[(g, actor)].role)
  }

  lemma AdminAlone(cfg: Config, f: Faults, s: State, pid: Pid, c: Chats.Chat) returns (e: State)
    requires Begins(cfg, s, pid) && s.procs[pid].req.AdminReq? && c.t == s.t && c.m == s.m
    ensures Reaches(cfg, f, s, pid, e) && DoneUnder(f, s, pid, e, c)
  {
    var req := s.procs[pid].req;
    SerialAdmin(c, req, s.now);
    if ActorRow in f || !MaySetRoles(s.t, req.uid, req.group) {
      e := Reads(cfg, f, s, pid, Done);
    } else {
      var s1 := Reads(cfg, f, s, pid, Write);
      e := RoleAlone(cfg, f, s1, pid, req.group, req.target, if req.isAdmin then Admin else Member);
      Onward(cfg, f, s, pid, s1, e);
    }
  }

  lemma RoomRequestAlone(cfg: Config, f: Faults, s: State, pid: Pid, c: Chats.Chat) returns (e: State)
    requires Begins(cfg, s, pid) && IsRoomRequest(s.procs[pid].req) && c.t == s.t && c.m == s.m
    ensures Reaches(cfg, f, s, pid, e) && DoneUnder(f, s, pid, e, c)
  {
    match s.procs[pid].req
    case FriendReq(_, _) => e := FriendAlone(cfg, f, s, pid, c);
    case AddReq(_, _, _) => e := AddAlone(cfg, f, s, pid, c);
    case RemoveReq(_, _, _) => e := RemoveAlone(cfg, f, s, pid, c);
    case ExitReq(_, _) => e := ExitAlone(cfg, f, s, pid, c);
    case AdminReq(_, _, _, _) => e := AdminAlone(cfg, f, s, pid, c);
    case MarkReadReq(_, _) => e := MarkReadAlone(cfg, f, s, pid, c);
    case GroupReq(_, _, _) => e := GroupAlone(cfg, f, s, pid, c);
  }
}
