/** The cache is meant not to serve a list that is wrong about somebody once the request that
    added or removed them has invalidated it. Requests handled one at a time achieve that;
    for overlapping ones this is exactly when it fails. */
module InterleavedMemberCache {
  import opened Domain
  import opened Tables
  import opened MessageLog
  import opened MemberCaches
  import opened Interleaved
  import opened InterleavedSafety
  import opened InterleavedSolo

  // Group g's entry, if there is one, is right about u, who is `inside` or not.
  ghost predicate EntryRight(cache: map<RoomId, Entry>, g: RoomId, u: Uid, inside: bool) {
    g in cache ==> (u in cache[g].uids <==> inside)
  }

  // The process is about to fill g's entry, in time, with a list that is wrong about u.
  ghost predicate HoldsWrong(cfg: Config, now: Time, p: Proc, g: RoomId, u: Uid, inside: bool) {
    match p.pc
    case CacheSet(use, dest, uids, at) =>
      dest.room == g && !(u in uids <==> inside) && now <= p.start + cfg.deadline
    case _ => false
  }

  ghost predicate SomeoneHoldsWrong(cfg: Config, s: State, g: RoomId, u: Uid, inside: bool) {
    exists pid :: pid in s.procs && HoldsWrong(cfg, s.now, s.procs[pid], g, u, inside)
  }

  ghost predicate StaysSo(b: seq<State>, g: RoomId, u: Uid, inside: bool) {
    forall i :: 0 <= i < |b| ==> ((g, u) in b[i].t.members <==> inside)
  }

  // Some run from s, along which u neither joins nor leaves, makes g's entry wrong about u.
  ghost predicate CanGoWrong(cfg: Config, s: State, g: RoomId, u: Uid, inside: bool) {
    exists b, acts, e :: Trace(cfg, b, acts, s, e) && StaysSo(b, g, u, inside) && !EntryRight(e.cache, g, u, inside)
  }

  // Take any moment at which g's entry is gone, or right about u: in particular the moment an
  // invalidation takes effect. While u stays in, or out, as it is then, the entry can become
  // wrong about u if and only if some request that read the list before the change has yet to
  // store it. Other groups, other uids and failing calls make no difference.
  lemma EntryGoesWrongIff(cfg: Config, s: State, g: RoomId, u: Uid)
    requires EntryRight(s.cache, g, u, (g, u) in s.t.members)
    ensures CanGoWrong(cfg, s, g, u, (g, u) in s.t.members)
       <==> SomeoneHoldsWrong(cfg, s, g, u, (g, u) in s.t.members)
  {
    var inside := (g, u) in s.t.members;
    if CanGoWrong(cfg, s, g, u, inside) && !SomeoneHoldsWrong(cfg, s, g, u, inside) {
      var b, acts, e :| Trace(cfg, b, acts, s, e) && StaysSo(b, g, u, inside) && !EntryRight(e.cache, g, u, inside);
      StaysSafe(cfg, b, acts, s, e, g, u, inside, |acts|);
      assert false;
    }
    if SomeoneHoldsWrong(cfg, s, g, u, inside) {
      var pid :| pid in s.procs && HoldsWrong(cfg, s.now, s.procs[pid], g, u, inside);
      FillGoesWrong(cfg, s, pid, g, u, inside);
    }
  }

  lemma FillGoesWrong(cfg: Config, s: State, pid: Pid, g: RoomId, u: Uid, inside: bool)
    requires inside == ((g, u) in s.t.members)
    requires pid in s.procs && HoldsWrong(cfg, s.now, s.procs[pid], g, u, inside)
    ensures CanGoWrong(cfg, s, g, u, inside)
  {
    var a := Call(pid, true);
    var e := Apply(cfg, s, a);
    assert Trace(cfg, [s, e], [a], s, e);
    assert StaysSo([s, e], g, u, inside);
  }

  ghost predicate Safe(cfg: Config, s: State, g: RoomId, u: Uid, inside: bool) {
    EntryRight(s.cache, g, u, inside) && !SomeoneHoldsWrong(cfg, s, g, u, inside)
  }

  lemma {:induction false} StaysSafe(cfg: Config, b: seq<State>, acts: seq<Action>, s: State, e: State,
                                     g: RoomId, u: Uid, inside: bool, i: nat)
    requires Trace(cfg, b, acts, s, e) && StaysSo(b, g, u, inside) && Safe(cfg, s, g, u, inside) && i <= |acts|
    ensures Safe(cfg, b[i], g, u, inside)
  {
    if i > 0 {
      StaysSafe(cfg, b, acts, s, e, g, u, inside, i - 1);
      assert Leads(cfg, b[i - 1], acts[i - 1], b[i - 1 + 1]);
      StepStaysSafe(cfg, b[i - 1], acts[i - 1], g, u, inside);
    }
  }

  lemma StepStaysSafe(cfg: Config, s: State, a: Action, g: RoomId, u: Uid, inside: bool)
    requires Enabled(cfg, s, a) && Safe(cfg, s, g, u, inside) && inside == ((g, u) in s.t.members)
    ensures Safe(cfg, Apply(cfg, s, a), g, u, inside)
  {
    var s' := Apply(cfg, s, a);
    if a.Call? {
      MoveStaysSafe(cfg, s, s.procs[a.pid], a.ok, g, u, inside);
    }
    forall pid | pid in s'.procs ensures !HoldsWrong(cfg, s'.now, s'.procs[pid], g, u, inside) {
      if pid in s.procs && s'.procs[pid] == s.procs[pid] {
        assert !HoldsWrong(cfg, s.now, s.procs[pid], g, u, inside);
      }
    }
  }

  // Whoever reads the list now reads the truth, and whoever fills the entry holds it.
  lemma MoveStaysSafe(cfg: Config, s: State, p: Proc, ok: bool, g: RoomId, u: Uid, inside: bool)
    requires inside == ((g, u) in s.t.members) && !HoldsWrong(cfg, s.now, p, g, u, inside)
    requires ok ==> s.now <= p.start + cfg.deadline
    requires EntryRight(s.cache, g, u, inside)
    ensures EntryRight(CacheAfter(cfg, s.cache, s.now, MoveOf(s, p, ok).stmt), g, u, inside)
    ensures !HoldsWrong(cfg, s.now, p.(pc := MoveOf(s, p, ok).pc), g, u, inside)
  {
    if p.pc.ListRows? {
      ListingIsRightAbout(s.t, p.pc.dest.room, u);
    }
  }

  lemma ListingIsRightAbout(t: Tables, g: RoomId, u: Uid)
    ensures u in UidsOf(Listing(t, g)) <==> (g, u) in t.members
  {
    ListingIsMembership(t, g);
    assert u in UidsOf(Listing(t, g)) <==> u in ToSet(UidsOf(Listing(t, g)));
    assert u in MemberUids(t, g) <==> (g, u) in t.members;
  }

  // ----- Runs in which it goes wrong -----

  // In any group that is not hot, whatever is cached, for anybody who may remove u. At mid the
  // removal and its invalidation are over and the cache tells the truth; at late a post that
  // had read the list before has stored it, and the live entry names u; then u, still out,
  // sends a message, which is accepted. No call fails. With a zero time to live nothing would
  // ever be served from the cache.
  lemma InvalidationCanComeTooEarly(cfg: Config, s: State, g: RoomId, actor: Uid, u: Uid) returns (mid: State,
                                                                                                   late: State,
                                                                                                   e: State)
    requires Init(cfg, s) && 0 < cfg.ttl && g in s.t.groups && !s.t.rooms[g].hot
    requires MayRemove(s.t, actor, g, u)
    ensures CanReach(cfg, s, mid) && CanReach(cfg, mid, late) && CanReach(cfg, late, e) && Happens(cfg, s, e)
    ensures mid.procs.Keys == {1, 2} && mid.procs[2] == Proc(RemoveReq(actor, g, u), mid.now, Done)
    ensures Coherent(mid.cache, mid.t) && (g, u) !in mid.t.members
    ensures late.t == mid.t && late.m == mid.m && late.procs.Keys == {1, 2}
    ensures !EntryRight(late.cache, g, u, false) && late.now < late.cache[g].expiry
    ensures e.t == mid.t && e.procs.Keys == {1, 2, 3}
    ensures e.procs[3].req == SendReq(u, g, "hi") && e.procs[3].start == late.now
    ensures e.m == PostedLog(late, u, g, "hi")
  {
    mid := RemovesAfterRead(cfg, s, g, actor, u);
    ListingIsRightAbout(s.t, g, u);
    assert DestOf(s.t, g) == Dest(g, GroupRoom, false);
    late := FillsLate(cfg, mid, g, UidsOf(Listing(s.t, g)));
    e := PostsAnyway(cfg, late, g, u);
    ReachesOn(cfg, s, mid, late);
    ReachesOn(cfg, s, late, e);
    ReachableHappens(cfg, s, e);
  }

  // When every entry has expired: a post reads the list, and then the removal takes place.
  lemma RemovesAfterRead(cfg: Config, s: State, g: RoomId, actor: Uid, u: Uid) returns (mid: State)
    requires Init(cfg, s) && g in s.t.groups && !s.t.rooms[g].hot && MayRemove(s.t, actor, g, u)
    ensures CanReach(cfg, s, mid) && mid.m == s.m && mid.t == DeleteMember(s.t, g, u) && Coherent(mid.cache, mid.t)
    ensures mid.procs.Keys == {1, 2} && mid.procs[2] == Proc(RemoveReq(actor, g, u), mid.now, Done)
    ensures mid.procs[1].start == mid.now
    ensures mid.procs[1].pc == CacheSet(ForCheck, Dest(g, GroupRoom, false), UidsOf(Listing(s.t, g)), mid.now)
  {
    var s1 := OneStep(cfg, s, Tick(cfg.ttl));
    var s2 := HoldsList(cfg, s1, g, actor);
    mid := RemovesMeanwhile(cfg, s2, g, actor, u);
    ReachesOn(cfg, s, s1, s2);
    ReachesOn(cfg, s, s2, mid);
  }

  lemma FillsLate(cfg: Config, s: State, g: RoomId, uids: seq<Uid>) returns (e: State)
    requires Running(cfg, s, 1) && s.procs[1].pc == CacheSet(ForCheck, Dest(g, GroupRoom, false), uids, s.now)
    ensures CanReach(cfg, s, e) && e.now == s.now && e.t == s.t && e.m == s.m && e.procs.Keys == s.procs.Keys
    ensures g in e.cache && e.cache[g] == Entry(uids, s.now + cfg.ttl)
  {
    e := Fills(cfg, {}, s, 1, ForCheck, Dest(g, GroupRoom, false), uids);
    OthersWait(cfg, {}, s, 1, e);
  }

  // A post that has missed the cache, its entries all being expired, and read the list.
  lemma HoldsList(cfg: Config, s: State, g: RoomId, u: Uid) returns (s': State)
    requires WellFormed(s.t) && s.procs == map[] && g in s.t.groups && !s.t.rooms[g].hot
    requires forall q :: q in s.cache ==> s.cache[q].expiry <= s.now
    ensures CanReach(cfg, s, s') && s'.now == s.now && s'.t == s.t && s'.m == s.m && s'.cache == s.cache
    ensures s'.procs.Keys == {1} && s'.procs[1].start == s.now
    ensures s'.procs[1].pc == CacheSet(ForCheck, Dest(g, GroupRoom, false), UidsOf(Listing(s.t, g)), s.now)
  {
    var dest := Dest(g, GroupRoom, false);
    var s1 := OneStep(cfg, s, Arrive(1, SendReq(u, g, "hi")));
    s' := ReadsList(cfg, s1, 1, dest);
    OthersWait(cfg, {}, s1, 1, s');
    ReachesOn(cfg, s, s1, s');
  }

  lemma ReadsList(cfg: Config, s: State, pid: Pid, dest: Dest) returns (s': State)
    requires Running(cfg, s, pid) && s.procs[pid].req.SendReq? && s.procs[pid].pc == FetchRoom
    requires s.procs[pid].req.room in s.t.rooms && dest == DestOf(s.t, s.procs[pid].req.room)
    requires dest.kind.GroupRoom? && !dest.hot && (dest.room in s.cache ==> s.cache[dest.room].expiry <= s.now)
    ensures Next(cfg, {}, s, s', pid, CacheSet(ForCheck, dest, UidsOf(Listing(s.t, dest.room)), s.now))
    ensures s'.t == s.t && s'.m == s.m && s'.cache == s.cache
  {
    var s1 := Fetches(cfg, {}, s, pid, dest);
    var s2 := FindsNone(cfg, {}, s1, pid, ForCheck, dest);
    s' := Lists(cfg, {}, s2, pid, ForCheck, dest);
    Onward(cfg, {}, s, pid, s1, s2);
    Onward(cfg, {}, s, pid, s2, s');
  }

  // A removal from beginning to end while process 1 waits.
  lemma RemovesMeanwhile(cfg: Config, s: State, g: RoomId, actor: Uid, u: Uid) returns (e: State)
    requires WellFormed(s.t) && LogOk(s.m) && Coherent(s.cache, s.t) && s.procs.Keys == {1}
    requires MayRemove(s.t, actor, g, u)
    ensures CanReach(cfg, s, e) && e.now == s.now && e.m == s.m && e.t == DeleteMember(s.t, g, u)
    ensures Coherent(e.cache, e.t) && e.procs.Keys == {1, 2} && e.procs[1] == s.procs[1]
    ensures e.procs[2] == Proc(RemoveReq(actor, g, u), s.now, Done)
  {
    var s1 := OneStep(cfg, s, Arrive(2, RemoveReq(actor, g, u)));
    e := Removes(cfg, {}, s1, 2, g, u);
    OthersWait(cfg, {}, s1, 2, e);
    ReachesOn(cfg, s, s1, e);
  }

  // A post by a uid that the live entry names.
  lemma PostsAnyway(cfg: Config, s: State, g: RoomId, u: Uid) returns (e: State)
    requires g in s.t.rooms && DestOf(s.t, g) == Dest(g, GroupRoom, false) && g != 0 && 3 !in s.procs
    requires g in s.cache && s.now < s.cache[g].expiry && u in s.cache[g].uids
    ensures CanReach(cfg, s, e) && e.t == s.t && e.m == PostedLog(s, u, g, "hi")
    ensures e.procs.Keys == s.procs.Keys + {3} && e.procs[3].req == SendReq(u, g, "hi") && e.procs[3].start == s.now
  {
    var dest := Dest(g, GroupRoom, false);
    var s1 := OneStep(cfg, s, Arrive(3, SendReq(u, g, "hi")));
    var s2 := Fetches(cfg, {}, s1, 3, dest);
    var s3 := Served(cfg, s2, 3, dest);
    e := Stores(cfg, {}, s3, 3, dest);
    Onward(cfg, {}, s1, 3, s2, s3);
    Onward(cfg, {}, s1, 3, s3, e);
    OthersWait(cfg, {}, s1, 3, e);
    ReachesOn(cfg, s, s1, e);
  }

  lemma Served(cfg: Config, s: State, pid: Pid, dest: Dest) returns (s': State)
    requires Running(cfg, s, pid) && s.procs[pid].pc == CacheGet(ForCheck, dest)
    requires dest.room in s.cache && s.now < s.cache[dest.room].expiry
    ensures Next(cfg, {}, s, s', pid, Resolved(ForCheck, dest, s.cache[dest.room].uids, s.now))
    ensures s'.t == s.t && s'.m == s.m && s'.cache == s.cache
  {
    s' := Reads(cfg, {}, s, pid, Resolved(ForCheck, dest, s.cache[dest.room].uids, s.now));
  }
}
