/** How old the membership is that overlapping requests act on. */
module InterleavedStaleness {
  import opened Domain
  import opened Tables
  import opened MessageLog
  import opened MemberCaches
  import opened Interleaved
  import opened InterleavedSafety

  // Some state of the run, no older than `since`, had exactly these participants in r.
  ghost predicate Was(b: seq<State>, i: nat, r: RoomId, uids: seq<Uid>, since: int)
    requires i < |b|
  {
    exists j :: 0 <= j <= i && b[j].now >= since && Participants(b[j].t, r) == ToSet(uids)
  }

  lemma WasWeaken(b: seq<State>, i: nat, k: nat, r: RoomId, uids: seq<Uid>, since: int, earlier: int)
    requires i <= k < |b| && Was(b, i, r, uids, since) && earlier <= since
    ensures Was(b, k, r, uids, earlier)
  {
    var j :| 0 <= j <= i && b[j].now >= since && Participants(b[j].t, r) == ToSet(uids);
    assert b[j].now >= earlier;
  }

  // An entry's witness: it was filled at most one deadline after its list was read.
  ghost predicate EntryOk(cfg: Config, b: seq<State>, i: nat, g: RoomId, entry: Entry)
    requires i < |b|
  {
    && g in b[i].t.groups && NoDup(entry.uids)
    && Was(b, i, g, entry.uids, entry.expiry - cfg.ttl - cfg.deadline)
  }

  // A process's witness, while it holds a list.
  ghost predicate HoldsOk(cfg: Config, b: seq<State>, i: nat, p: Proc)
    requires i < |b|
  {
    && p.start <= b[i].now
    && match p.pc
       case CacheSet(use, dest, uids, at) =>
         p.start <= at <= b[i].now && at <= p.start + cfg.deadline && NoDup(uids) && Was(b, i, dest.room, uids, at)
       case Resolved(use, dest, uids, at) =>
         p.start <= at <= b[i].now && at <= p.start + cfg.deadline && NoDup(uids)
         && Was(b, i, dest.room, uids, at - cfg.ttl - cfg.deadline)
       case _ => true
  }

  ghost predicate WitnessedAt(cfg: Config, b: seq<State>, i: nat)
    requires i < |b|
  {
    && (forall g :: g in b[i].cache ==> EntryOk(cfg, b, i, g, b[i].cache[g]))
    && (forall pid :: pid in b[i].procs ==> HoldsOk(cfg, b, i, b[i].procs[pid]))
  }

  lemma EntryKept(cfg: Config, b: seq<State>, i: nat, g: RoomId, entry: Entry)
    requires i + 1 < |b| && EntryOk(cfg, b, i, g, entry) && b[i].t.groups.Keys <= b[i + 1].t.groups.Keys
    ensures EntryOk(cfg, b, i + 1, g, entry)
  {
    var since := entry.expiry - cfg.ttl - cfg.deadline;
    WasWeaken(b, i, i + 1, g, entry.uids, since, since);
  }

  lemma HoldsKept(cfg: Config, b: seq<State>, i: nat, p: Proc)
    requires i + 1 < |b| && HoldsOk(cfg, b, i, p) && b[i].now <= b[i + 1].now
    ensures HoldsOk(cfg, b, i + 1, p)
  {
    match p.pc
    case CacheSet(use, dest, uids, at) => WasWeaken(b, i, i + 1, dest.room, uids, at, at);
    case Resolved(use, dest, uids, at) =>
      var since := at - cfg.ttl - cfg.deadline;
      WasWeaken(b, i, i + 1, dest.room, uids, since, since);
    case _ =>
  }

  lemma HitWitnessed(cfg: Config, b: seq<State>, i: nat, g: RoomId)
    requires i < |b| && g in b[i].cache && b[i].now < b[i].cache[g].expiry
    requires EntryOk(cfg, b, i, g, b[i].cache[g])
    ensures Was(b, i, g, b[i].cache[g].uids, b[i].now - cfg.ttl - cfg.deadline)
  {
    var entry := b[i].cache[g];
    WasWeaken(b, i, i, g, entry.uids, entry.expiry - cfg.ttl - cfg.deadline, b[i].now - cfg.ttl - cfg.deadline);
  }

  lemma ListWitnessed(cfg: Config, b: seq<State>, i: nat, g: RoomId)
    requires i < |b| && g in b[i].t.rooms && b[i].t.rooms[g].kind.GroupRoom?
    ensures NoDup(UidsOf(Listing(b[i].t, g))) && Was(b, i, g, UidsOf(Listing(b[i].t, g)), b[i].now)
  {
    ListingIsMembership(b[i].t, g);
  }

  lemma PairWitnessed(cfg: Config, b: seq<State>, i: nat, r: RoomId)
    requires i < |b| && WellFormed(b[i].t) && r in b[i].t.friends
    ensures var f := b[i].t.friends[r];
            NoDup([f.uid1, f.uid2]) && Was(b, i, r, [f.uid1, f.uid2], b[i].now - cfg.ttl - cfg.deadline)
  {
    var f := b[i].t.friends[r];
    assert Participants(b[i].t, r) == ToSet([f.uid1, f.uid2]);
  }

  // A list read from the tables, or found live in the cache, has a witness.
  lemma MessageMoveWitnessed(cfg: Config, b: seq<State>, i: nat, p: Proc, ok: bool)
    requires i < |b| && SharedOk(b[i].t, b[i].m) && LocalOk(b[i].t, b[i].m, p) && HoldsOk(cfg, b, i, p)
    requires forall g :: g in b[i].cache ==> EntryOk(cfg, b, i, g, b[i].cache[g])
    requires ok ==> b[i].now <= p.start + cfg.deadline
    ensures HoldsOk(cfg, b, i, p.(pc := MessageMove(b[i], p, ok).pc))
  {
    var s := b[i];
    match p.pc
    case CacheGet(use, dest) =>
      if dest.room in s.cache && s.now < s.cache[dest.room].expiry {
        HitWitnessed(cfg, b, i, dest.room);
      }
    case ListRows(use, dest) => ListWitnessed(cfg, b, i, dest.room);
    case CacheSet(use, dest, uids, at) => WasWeaken(b, i, i, dest.room, uids, at, at - cfg.ttl - cfg.deadline);
    case GetFriend(use, dest) => PairWitnessed(cfg, b, i, dest.room);
    case _ =>
  }

  lemma MoveWitnessed(cfg: Config, b: seq<State>, i: nat, p: Proc, ok: bool)
    requires i < |b| && SharedOk(b[i].t, b[i].m) && LocalOk(b[i].t, b[i].m, p) && HoldsOk(cfg, b, i, p)
    requires forall g :: g in b[i].cache ==> EntryOk(cfg, b, i, g, b[i].cache[g])
    requires ok ==> b[i].now <= p.start + cfg.deadline
    ensures HoldsOk(cfg, b, i, p.(pc := MoveOf(b[i], p, ok).pc))
  {
    if IsRoomCall(p.pc) {
      var next := RoomMove(b[i], p, ok).pc;
      assert !next.CacheSet? && !next.Resolved?;
    } else {
      MessageMoveWitnessed(cfg, b, i, p, ok);
    }
  }

  lemma FillWitnessed(cfg: Config, b: seq<State>, i: nat, p: Proc, ok: bool, g: RoomId)
    requires i < |b| && SharedOk(b[i].t, b[i].m) && LocalOk(b[i].t, b[i].m, p) && HoldsOk(cfg, b, i, p)
    requires forall q :: q in b[i].cache ==> EntryOk(cfg, b, i, q, b[i].cache[q])
    requires ok ==> b[i].now <= p.start + cfg.deadline
    requires var after := CacheAfter(cfg, b[i].cache, b[i].now, MoveOf(b[i], p, ok).stmt);
             g in after
    ensures EntryOk(cfg, b, i, g, CacheAfter(cfg, b[i].cache, b[i].now, MoveOf(b[i], p, ok).stmt)[g])
  {
    var stmt := MoveOf(b[i], p, ok).stmt;
    if stmt.Fill? && stmt.group == g {
      assert p.pc.CacheSet? && ok;
      WasWeaken(b, i, i, g, p.pc.uids, p.pc.at, b[i].now - cfg.deadline);
    } else {
      assert g in b[i].cache;
    }
  }

  lemma {:induction false} Witnessed(cfg: Config, b: seq<State>, acts: seq<Action>, i: nat)
    requires Behaviour(cfg, b, acts) && i < |b|
    ensures WitnessedAt(cfg, b, i)
  {
    if i == 0 {
      forall g | g in b[0].cache ensures EntryOk(cfg, b, 0, g, b[0].cache[g]) {}
    } else {
      var k := i - 1;
      Witnessed(cfg, b, acts, k);
      BehaviourSafe(cfg, b, acts, k);
      assert Leads(cfg, b[k], acts[k], b[k + 1]);
      StepSafe(cfg, b[k], acts[k]);
      WitnessedStep(cfg, b, acts[k], k);
    }
  }

  lemma WitnessedStep(cfg: Config, b: seq<State>, a: Action, i: nat)
    requires i + 1 < |b| && WitnessedAt(cfg, b, i) && StateOk(b[i]) && Leads(cfg, b[i], a, b[i + 1])
    requires Later(b[i].t, b[i].m, b[i + 1].t, b[i + 1].m)
    ensures WitnessedAt(cfg, b, i + 1)
  {
    var s, s' := b[i], b[i + 1];
    forall g | g in s'.cache ensures EntryOk(cfg, b, i + 1, g, s'.cache[g]) {
      if a.Call? { FillWitnessed(cfg, b, i, s.procs[a.pid], a.ok, g); }
      EntryKept(cfg, b, i, g, s'.cache[g]);
    }
    forall pid | pid in s'.procs ensures HoldsOk(cfg, b, i + 1, s'.procs[pid]) {
      if a.Call? && pid == a.pid { MoveWitnessed(cfg, b, i, s.procs[pid], a.ok); }
      if !(a.Arrive? && pid == a.pid) { HoldsKept(cfg, b, i, s'.procs[pid]); }
    }
  }

  // ----- Main results -----

  // The list a request resolved at `at` names, without repeats, exactly the participants the
  // room had at some instant at most one time to live and one deadline earlier, even if every
  // fill and every invalidation fails.
  lemma BoundedStaleness(cfg: Config, b: seq<State>, acts: seq<Action>, i: nat, pid: Pid)
    requires Behaviour(cfg, b, acts) && i < |b| && pid in b[i].procs && b[i].procs[pid].pc.Resolved?
    ensures var pc := b[i].procs[pid].pc;
            && NoDup(pc.uids) && pc.at <= b[i].now
            && exists j :: 0 <= j <= i && b[j].now + cfg.ttl + cfg.deadline >= pc.at
                           && Participants(b[j].t, pc.dest.room) == ToSet(pc.uids)
  {
    Witnessed(cfg, b, acts, i);
    var pc := b[i].procs[pid].pc;
    assert HoldsOk(cfg, b, i, b[i].procs[pid]);
    var j :| 0 <= j <= i && b[j].now >= pc.at - cfg.ttl - cfg.deadline
        && Participants(b[j].t, pc.dest.room) == ToSet(pc.uids);
    assert b[j].now + cfg.ttl + cfg.deadline >= pc.at;
  }

  // Every stored message comes from a uid that was allowed to post in its room at some
  // instant at most one time to live and two deadlines before it was stored.
  lemma PostersWereParticipants(cfg: Config, b: seq<State>, acts: seq<Action>, i: nat, id: MsgId)
    requires Behaviour(cfg, b, acts) && i < |acts| && id in b[i + 1].m.rows && id !in b[i].m.rows
    ensures var msg := b[i + 1].m.rows[id];
            exists j :: 0 <= j <= i && b[j].now + cfg.ttl + 2 * cfg.deadline >= b[i + 1].now
                        && msg.room in b[j].t.rooms && IsParticipant(b[j].t, msg.room, msg.from)
  {
    BehaviourSafe(cfg, b, acts, i);
    assert Leads(cfg, b[i], acts[i], b[i + 1]);
    var p := b[i].procs[acts[i].pid];
    assert LocalOk(b[i].t, b[i].m, p);
    var msg := b[i + 1].m.rows[id];
    AppendComesFromSend(b[i], p, acts[i].ok);
    if p.pc.InsertHot? {
      assert IsParticipant(b[i].t, msg.room, msg.from);
    } else {
      BoundedStaleness(cfg, b, acts, i, acts[i].pid);
      Witnessed(cfg, b, acts, i);
      assert HoldsOk(cfg, b, i, p);
      var j :| 0 <= j <= i && b[j].now + cfg.ttl + cfg.deadline >= p.pc.at
          && Participants(b[j].t, msg.room) == ToSet(p.pc.uids);
      assert msg.from in Participants(b[j].t, msg.room);
      ParticipantMayPost(b[j].t, msg.room, msg.from);
    }
  }

  lemma ParticipantMayPost(t: Tables, r: RoomId, u: Uid)
    requires u in Participants(t, r)
    ensures r in t.rooms && IsParticipant(t, r, u)
  {
    if !t.rooms[r].hot { ParticipantsAreParticipants(t, r, u); }
  }

  lemma AppendComesFromSend(s: State, p: Proc, ok: bool)
    requires MoveOf(s, p, ok).stmt.AppendMessage?
    ensures ok && p.req.SendReq? && MoveOf(s, p, ok).stmt.msg.from == p.req.uid
    ensures || (p.pc.InsertHot? && MoveOf(s, p, ok).stmt.msg.room == p.pc.dest.room)
            || (p.pc.Resolved? && p.req.uid in p.pc.uids && MoveOf(s, p, ok).stmt.msg.room == p.pc.dest.room)
  {}

  // A counter grows only for a uid that was in the room within the same bound, by one per
  // message.
  lemma CountersGrowForParticipants(cfg: Config, b: seq<State>, acts: seq<Action>, i: nat, u: Uid, r: RoomId)
    requires Behaviour(cfg, b, acts) && i < |acts|
    requires Unread(b[i + 1].t.contacts, u, r) > Unread(b[i].t.contacts, u, r)
    ensures Unread(b[i + 1].t.contacts, u, r) == Unread(b[i].t.contacts, u, r) + 1
    ensures exists j :: 0 <= j <= i && b[j].now + cfg.ttl + 2 * cfg.deadline >= b[i + 1].now
              && u in Participants(b[j].t, r)
  {
    BehaviourSafe(cfg, b, acts, i);
    assert Leads(cfg, b[i], acts[i], b[i + 1]);
    var p := b[i].procs[acts[i].pid];
    var stmt := MoveOf(b[i], p, acts[i].ok).stmt;
    RaiseComesFromTally(b[i], p, acts[i].ok);
    OnlyRaiseRaises(b[i].t, b[i].now, stmt, u, r);
    BumpCountsRepeats(b[i].t.contacts, stmt.room, stmt.uids, b[i].now, u, r);
    BoundedStaleness(cfg, b, acts, i, acts[i].pid);
    ExceptOnce(p.pc.uids, p.req.uid, u);
    Witnessed(cfg, b, acts, i);
    assert HoldsOk(cfg, b, i, p);
    var j :| 0 <= j <= i && b[j].now + cfg.ttl + cfg.deadline >= p.pc.at && Participants(b[j].t, r) == ToSet(p.pc.uids);
    assert u in Participants(b[j].t, r);
  }

  lemma OnlyRaiseRaises(t: Tables, now: Time, stmt: Stmt, u: Uid, r: RoomId)
    requires Unread(TablesAfter(t, now, stmt).contacts, u, r) > Unread(t.contacts, u, r)
    ensures stmt.RaiseUnread?
  {}

  lemma RaiseComesFromTally(s: State, p: Proc, ok: bool)
    ensures var stmt := MoveOf(s, p, ok).stmt;
            stmt.RaiseUnread? ==>
              ok && p.pc.Resolved? && stmt == RaiseUnread(p.pc.dest.room, Except(p.pc.uids, p.req.uid))
  {}

  lemma {:induction false} ExceptOnce(uids: seq<Uid>, sender: Uid, u: Uid)
    requires NoDup(uids)
    ensures multiset(Except(uids, sender))[u] == if u in uids && u != sender then 1 else 0
  {
    if uids != [] {
      var n := |uids| - 1;
      assert uids == uids[..n] + [uids[n]];
      ExceptOnce(uids[..n], sender, u);
    }
  }
}
