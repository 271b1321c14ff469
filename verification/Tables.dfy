/** The relational state behind internal/room/store.go, as values, with one function per
    SQL statement. Unique keys (000001_init.up.sql:26,34,44,75) are the keys of the maps. */
module Tables {
  import opened Domain

  datatype Tables = Tables(
    rooms: map<RoomId, Room>,
    nextRoom: RoomId,
    groups: map<RoomId, Group>,
    friends: map<RoomId, Friend>,
    members: map<(RoomId, Uid), MemberRow>,
    nextMember: nat,
    contacts: map<(Uid, RoomId), Contact>)

  // ----- Statements -----

  function InsertGroupRoom(t: Tables, owner: Uid, name: string, avatar: string, now: Time): Tables {
    var r := t.nextRoom;
    t.(rooms := t.rooms[r := Room(GroupRoom, false, now, 0)],
       nextRoom := r + 1,
       groups := t.groups[r := Group(name, avatar)],
       members := t.members[(r, owner) := MemberRow(t.nextMember, Owner)],
       nextMember := t.nextMember + 1)
  }

  // Room ids taken by transactions that were rolled back.
  function SkipRoomIds(t: Tables, n: nat): Tables {
    t.(nextRoom := t.nextRoom + n)
  }

  function InsertFriendRoom(t: Tables, uid1: Uid, uid2: Uid, now: Time): Tables {
    var r := t.nextRoom;
    t.(rooms := t.rooms[r := Room(FriendRoom, false, now, 0)],
       nextRoom := r + 1,
       friends := t.friends[r := Friend(uid1, uid2)])
  }

  function InsertMember(t: Tables, g: RoomId, u: Uid, role: Role): Tables {
    t.(members := t.members[(g, u) := MemberRow(t.nextMember, role)], nextMember := t.nextMember + 1)
  }

  function DeleteMember(t: Tables, g: RoomId, u: Uid): Tables {
    t.(members := t.members - {(g, u)})
  }

  function UpdateRole(t: Tables, g: RoomId, u: Uid, role: Role): Tables {
    if (g, u) in t.members
    then t.(members := t.members[(g, u) := t.members[(g, u)].(role := role)])
    else t
  }

  function Touch(t: Tables, r: RoomId, id: MsgId, now: Time): Tables {
    if r in t.rooms
    then t.(rooms := t.rooms[r := t.rooms[r].(activeTime := now, lastMsgId := id)])
    else t
  }

  function Unread(cs: map<(Uid, RoomId), Contact>, u: Uid, r: RoomId): nat {
    if (u, r) in cs then cs[(u, r)].unread else 0
  }

  // INSERT ... ON DUPLICATE KEY UPDATE over a list of value rows, applied row by row.
  function BumpRows(cs: map<(Uid, RoomId), Contact>, r: RoomId, uids: seq<Uid>, now: Time)
    : map<(Uid, RoomId), Contact>
  {
    if uids == [] then cs
    else
      var u := uids[|uids| - 1];
      var before := BumpRows(cs, r, uids[..|uids| - 1], now);
      before[(u, r) := Contact(now, Unread(before, u, r) + 1)]
  }

  // One more unread message for each uid of a set.
  function BumpSet(cs: map<(Uid, RoomId), Contact>, r: RoomId, us: set<Uid>, now: Time): map<(Uid, RoomId), Contact> {
    map k | k in cs.Keys + (set u | u in us :: (u, r)) ::
      if k.1 == r && k.0 in us then Contact(now, Unread(cs, k.0, r) + 1) else cs[k]
  }

  function ClearUnread(cs: map<(Uid, RoomId), Contact>, u: Uid, r: RoomId, now: Time): map<(Uid, RoomId), Contact> {
    if (u, r) in cs then cs[(u, r) := cs[(u, r)].(unread := 0)] else cs[(u, r) := Contact(now, 0)]
  }

  // The multi-row upsert counts a uid as often as the list repeats it ...
  lemma {:induction false} BumpCountsRepeats(cs: map<(Uid, RoomId), Contact>, r: RoomId, uids: seq<Uid>, now: Time,
                                             u: Uid, q: RoomId)
    ensures Unread(BumpRows(cs, r, uids, now), u, q)
         == Unread(cs, u, q) + if q == r then multiset(uids)[u] else 0
  {
    if uids != [] {
      var n := |uids| - 1;
      assert uids == uids[..n] + [uids[n]];
      BumpCountsRepeats(cs, r, uids[..n], now, u, q);
      BumpCountsRepeats(cs, r, uids[..n], now, uids[n], r);
    }
  }

  // ... so only on a duplicate-free list is it the bump of a set.
  lemma {:induction false} BumpRowsIsBumpSet(cs: map<(Uid, RoomId), Contact>, r: RoomId, uids: seq<Uid>, now: Time)
    requires NoDup(uids)
    ensures BumpRows(cs, r, uids, now) == BumpSet(cs, r, ToSet(uids), now)
  {
    if uids != [] {
      var n := |uids| - 1;
      DropLast(uids);
      BumpRowsIsBumpSet(cs, r, uids[..n], now);
      BumpOneMore(cs, r, ToSet(uids[..n]), uids[n], now);
    } else {
      assert BumpSet(cs, r, {}, now) == cs;
    }
  }

  lemma DropLast(uids: seq<Uid>)
    requires uids != [] && NoDup(uids)
    ensures NoDup(uids[..|uids| - 1]) && uids[|uids| - 1] !in ToSet(uids[..|uids| - 1])
    ensures ToSet(uids) == ToSet(uids[..|uids| - 1]) + {uids[|uids| - 1]}
  {
    assert uids == uids[..|uids| - 1] + [uids[|uids| - 1]];
  }

  lemma BumpOneMore(cs: map<(Uid, RoomId), Contact>, r: RoomId, us: set<Uid>, u: Uid, now: Time)
    requires u !in us
    ensures BumpSet(cs, r, us + {u}, now)
         == BumpSet(cs, r, us, now)[(u, r) := Contact(now, Unread(BumpSet(cs, r, us, now), u, r) + 1)]
  {
    var small, big := BumpSet(cs, r, us, now), BumpSet(cs, r, us + {u}, now);
    assert Unread(small, u, r) == Unread(cs, u, r);
    assert big.Keys == small.Keys + {(u, r)};
    forall k | k in big ensures big[k] == small[(u, r) := Contact(now, Unread(small, u, r) + 1)][k] {}
  }

  // ----- Queries -----

  function UidsIn(members: map<(RoomId, Uid), MemberRow>, g: RoomId): set<Uid> {
    set k | k in members && k.0 == g :: k.1
  }

  function MemberUids(t: Tables, g: RoomId): set<Uid> {
    UidsIn(t.members, g)
  }

  ghost predicate IsOwner(t: Tables, g: RoomId, u: Uid) {
    (g, u) in t.members && t.members[(g, u)].role == Owner
  }

  predicate IsFriendOf(f: Friend, u: Uid) {
    f.uid1 == u || f.uid2 == u
  }

  // The simple rule of internal/room/role.go: a fresh query per call, no cache.
  predicate IsParticipant(t: Tables, r: RoomId, u: Uid)
    requires r in t.rooms
  {
    if t.rooms[r].hot then true
    else if t.rooms[r].kind.GroupRoom? then (r, u) in t.members
    else r in t.friends && IsFriendOf(t.friends[r], u)
  }

  // Who a message in room r is for, when r is not hot.
  function Participants(t: Tables, r: RoomId): set<Uid> {
    if r !in t.rooms then {}
    else if t.rooms[r].kind.GroupRoom? then MemberUids(t, r)
    else if r in t.friends then {t.friends[r].uid1, t.friends[r].uid2}
    else {}
  }

  lemma ParticipantsAreParticipants(t: Tables, r: RoomId, u: Uid)
    requires r in t.rooms && !t.rooms[r].hot
    ensures IsParticipant(t, r, u) <==> u in Participants(t, r)
  {
    if IsParticipant(t, r, u) && t.rooms[r].kind.GroupRoom? {
      assert (r, u) in t.members;
    }
  }

  datatype Listed = Listed(uid: Uid, id: nat, role: Role)

  // ORDER BY role, id. Row ids are unique; the uid only makes the order total as written.
  predicate Before(a: Listed, b: Listed) {
    || a.role.Rank() < b.role.Rank()
    || (a.role == b.role && a.id < b.id)
    || (a.role == b.role && a.id == b.id && a.uid < b.uid)
  }

  ghost predicate InOrder(s: seq<Listed>) {
    forall i, j :: 0 <= i < j < |s| ==> Before(s[i], s[j])
  }

  lemma {:induction false} FirstExists(s: set<Listed>)
    requires s != {}
    ensures exists m :: m in s && forall x :: x in s && x != m ==> Before(m, x)
  {
    var a :| a in s;
    if s != {a} {
      FirstExists(s - {a});
      var m :| m in s - {a} && forall x :: x in s - {a} && x != m ==> Before(m, x);
      var first := if Before(a, m) then a else m;
      forall x | x in s && x != first ensures Before(first, x) {
        if x != a && x != m { assert x in s - {a}; }
      }
    } else {
      assert forall x :: x in s ==> x == a;
    }
  }

  function SortRows(s: set<Listed>): (r: seq<Listed>)
    ensures ToSet(r) == s
    ensures InOrder(r)
  {
    if s == {} then []
    else
      FirstExists(s);
      var m :| m in s && forall x | x in s && x != m :: Before(m, x);
      var rest := SortRows(s - {m});
      Prepended(m, rest);
      [m] + rest
  }

  lemma Prepended(m: Listed, rest: seq<Listed>)
    ensures ToSet([m] + rest) == {m} + ToSet(rest)
    ensures InOrder(rest) && (forall x :: x in ToSet(rest) ==> Before(m, x)) ==> InOrder([m] + rest)
  {
    assert forall x :: x in [m] + rest <==> x == m || x in rest;
    assert forall j :: 0 <= j < |rest| ==> rest[j] in ToSet(rest);
  }

  function ListingRows(t: Tables, g: RoomId): set<Listed> {
    set k | k in t.members && k.0 == g :: Listed(k.1, t.members[k].id, t.members[k].role)
  }

  function Listing(t: Tables, g: RoomId): seq<Listed> {
    SortRows(ListingRows(t, g))
  }

  function UidsOf(ms: seq<Listed>): (uids: seq<Uid>)
    ensures |uids| == |ms|
    ensures forall i :: 0 <= i < |ms| ==> uids[i] == ms[i].uid
  {
    seq(|ms|, i requires 0 <= i < |ms| => ms[i].uid)
  }

  // A listing names every member of the group once and nobody else.
  lemma ListingIsMembership(t: Tables, g: RoomId)
    ensures ToSet(UidsOf(Listing(t, g))) == MemberUids(t, g)
    ensures NoDup(UidsOf(Listing(t, g)))
  {
    var ms, uids := Listing(t, g), UidsOf(Listing(t, g));
    forall i | 0 <= i < |ms| ensures (g, uids[i]) in t.members && ms[i] == Row(t, g, uids[i]) {
      assert ms[i] in ToSet(ms);
    }
    forall u | u in MemberUids(t, g) ensures u in uids {
      assert (g, u) in t.members;
      assert Row(t, g, u) in ToSet(ms);
      var i :| 0 <= i < |ms| && ms[i] == Row(t, g, u);
      assert uids[i] == u;
    }
    forall i, j | 0 <= i < j < |uids| ensures uids[i] != uids[j] {
      assert Before(ms[i], ms[j]);
    }
  }

  // Its rows are the stored ones: the owner, then admins, then the others, each by row id.
  lemma ListingIsStored(t: Tables, g: RoomId)
    requires MemberRows(t)
    ensures var ms := Listing(t, g);
            && (forall i :: 0 <= i < |ms| ==>
                  (g, ms[i].uid) in t.members && t.members[(g, ms[i].uid)] == MemberRow(ms[i].id, ms[i].role))
            && forall i, j :: 0 <= i < j < |ms| ==>
                 || (ms[i].role == Owner && ms[j].role != Owner)
                 || (ms[i].role == Admin && ms[j].role == Member)
                 || (ms[i].role == ms[j].role && ms[i].id < ms[j].id)
  {
    var ms := Listing(t, g);
    forall i | 0 <= i < |ms|
      ensures (g, ms[i].uid) in t.members && t.members[(g, ms[i].uid)] == MemberRow(ms[i].id, ms[i].role)
    {
      assert ms[i] in ToSet(ms);
    }
    forall i, j | 0 <= i < j < |ms|
      ensures || (ms[i].role == Owner && ms[j].role != Owner)
              || (ms[i].role == Admin && ms[j].role == Member)
              || (ms[i].role == ms[j].role && ms[i].id < ms[j].id)
    {
      assert Before(ms[i], ms[j]);
    }
  }

  function Row(t: Tables, g: RoomId, u: Uid): Listed
    requires (g, u) in t.members
  {
    Listed(u, t.members[(g, u)].id, t.members[(g, u)].role)
  }

  // Whom a room's list of recipients is for, given its members once each.
  lemma RecipientsAreParticipants(t: Tables, r: RoomId, members: seq<Uid>)
    requires DetailRows(t) && r in t.rooms
    requires t.rooms[r].kind.GroupRoom? ==> NoDup(members) && ToSet(members) == MemberUids(t, r)
    ensures var friend := if r in t.friends then Some(t.friends[r]) else None;
            var out := Recipients(t.rooms[r].kind, members, friend);
            && NoDup(out) && ToSet(out) == Participants(t, r)
            && (forall u :: !t.rooms[r].hot ==> (u in out <==> IsParticipant(t, r, u)))
  {
    if !t.rooms[r].hot {
      forall u { ParticipantsAreParticipants(t, r, u); }
    }
    var friend := if r in t.friends then Some(t.friends[r]) else None;
    var out := Recipients(t.rooms[r].kind, members, friend);
    assert ToSet(out) == Participants(t, r);
    forall u: Uid ensures u in out <==> u in Participants(t, r) { assert u in out <==> u in ToSet(out); }
  }

  // The same rooms and the same people in them; recency and counters may differ.
  ghost predicate SamePeople(t: Tables, t': Tables) {
    && t'.nextRoom == t.nextRoom && t'.members == t.members && t'.groups == t.groups && t'.friends == t.friends
    && t'.rooms.Keys == t.rooms.Keys
    && forall r :: r in t.rooms ==> t'.rooms[r].kind == t.rooms[r].kind && t'.rooms[r].hot == t.rooms[r].hot
  }

  // ----- Invariant of the tables -----

  // Every room has exactly the detail row its kind asks for.
  ghost predicate DetailRows(t: Tables) {
    && 1 <= t.nextRoom
    && (forall r :: r in t.rooms ==> 1 <= r < t.nextRoom)
    && (forall r :: r in t.groups <==> r in t.rooms && t.rooms[r].kind.GroupRoom?)
    && (forall r :: r in t.friends <==> r in t.rooms && t.rooms[r].kind.FriendRoom?)
    && (forall r :: r in t.friends ==> t.friends[r].uid1 < t.friends[r].uid2)
  }

  lemma PeopleKeepRows(t: Tables, t': Tables)
    requires DetailRows(t) && SamePeople(t, t')
    ensures DetailRows(t')
  {}

  // Members belong to groups, and a group has at most one owner.
  ghost predicate MemberRows(t: Tables) {
    && (forall k :: k in t.members ==> k.0 in t.groups && t.members[k].id < t.nextMember)
    && (forall j, k :: j in t.members && k in t.members && j != k ==> t.members[j].id != t.members[k].id)
    && (forall g, u, v :: IsOwner(t, g, u) && IsOwner(t, g, v) ==> u == v)
  }

  ghost predicate WellFormed(t: Tables) {
    DetailRows(t) && MemberRows(t)
  }

  // At most one 1:1 room per unordered pair.
  ghost predicate PairsUnique(t: Tables) {
    forall r, q :: r in t.friends && q in t.friends && t.friends[r] == t.friends[q] ==> r == q
  }

  lemma InsertGroupRoomOk(t: Tables, owner: Uid, name: string, avatar: string, now: Time)
    requires WellFormed(t)
    ensures WellFormed(InsertGroupRoom(t, owner, name, avatar, now))
    ensures PairsUnique(t) ==> PairsUnique(InsertGroupRoom(t, owner, name, avatar, now))
  {
    FreshGroupMembers(t, owner, InsertGroupRoom(t, owner, name, avatar, now));
  }

  lemma FreshGroupMembers(t: Tables, owner: Uid, t': Tables)
    requires WellFormed(t) && t.groups.Keys <= t'.groups.Keys && t.nextRoom in t'.groups
    requires t'.members == t.members[(t.nextRoom, owner) := MemberRow(t.nextMember, Owner)]
              && t'.nextMember == t.nextMember + 1
    ensures MemberRows(t')
  {
    forall g, u, v | IsOwner(t', g, u) && IsOwner(t', g, v) ensures u == v {
      if g != t.nextRoom { assert IsOwner(t, g, u) && IsOwner(t, g, v); }
    }
  }

  // The new group has its creator as only member; every other group is as it was.
  lemma InsertGroupRoomMembers(t: Tables, owner: Uid, name: string, avatar: string, now: Time)
    requires WellFormed(t)
    ensures MemberUids(InsertGroupRoom(t, owner, name, avatar, now), t.nextRoom) == {owner}
    ensures var t' := InsertGroupRoom(t, owner, name, avatar, now);
            forall g :: g != t.nextRoom ==> MemberUids(t', g) == MemberUids(t, g)
  {
    var t' := InsertGroupRoom(t, owner, name, avatar, now);
    assert forall k :: k in t'.members && k.0 == t.nextRoom ==> k == (t.nextRoom, owner);
    assert (t.nextRoom, owner) in t'.members;
    forall g | g != t.nextRoom ensures MemberUids(t', g) == MemberUids(t, g) {
      SameMembers(t, t', g);
    }
  }

  lemma SameMembers(t: Tables, t': Tables, g: RoomId)
    requires forall u: Uid :: (g, u) in t.members <==> (g, u) in t'.members
    ensures MemberUids(t, g) == MemberUids(t', g)
  {
    forall u ensures u in MemberUids(t, g) <==> u in MemberUids(t', g) {
      if u in MemberUids(t, g) { assert (g, u) in t.members; assert (g, u) in t'.members; }
      if u in MemberUids(t', g) { assert (g, u) in t'.members; assert (g, u) in t.members; }
    }
  }

  lemma InsertFriendRoomOk(t: Tables, uid1: Uid, uid2: Uid, now: Time)
    requires WellFormed(t) && uid1 < uid2
    ensures WellFormed(InsertFriendRoom(t, uid1, uid2, now))
    ensures PairsUnique(t) && Friend(uid1, uid2) !in t.friends.Values ==>
              PairsUnique(InsertFriendRoom(t, uid1, uid2, now))
  {
    var t' := InsertFriendRoom(t, uid1, uid2, now);
    assert forall g, u :: IsOwner(t', g, u) <==> IsOwner(t, g, u);
    forall r | r in t.friends && t.friends[r] == Friend(uid1, uid2) ensures Friend(uid1, uid2) in t.friends.Values {}
  }

  lemma InsertMemberOk(t: Tables, g: RoomId, u: Uid)
    requires WellFormed(t) && g in t.groups && (g, u) !in t.members
    ensures WellFormed(InsertMember(t, g, u, Member))
    ensures MemberUids(InsertMember(t, g, u, Member), g) == MemberUids(t, g) + {u}
    ensures forall q :: q != g ==> MemberUids(InsertMember(t, g, u, Member), q) == MemberUids(t, q)
  {
    var t' := InsertMember(t, g, u, Member);
    assert forall q, v :: IsOwner(t', q, v) <==> IsOwner(t, q, v);
    forall v ensures v in MemberUids(t', g) <==> v in MemberUids(t, g) + {u} {
      assert v in MemberUids(t', g) <==> (g, v) in t'.members;
      assert v in MemberUids(t, g) <==> (g, v) in t.members;
    }
    forall q | q != g ensures MemberUids(t', q) == MemberUids(t, q) { SameMembers(t, t', q); }
  }

  lemma DeleteLeavesOthers(t: Tables, g: RoomId, u: Uid)
    ensures MemberUids(DeleteMember(t, g, u), g) == MemberUids(t, g) - {u}
    ensures forall q :: q != g ==> MemberUids(DeleteMember(t, g, u), q) == MemberUids(t, q)
  {
    var t' := DeleteMember(t, g, u);
    forall v: Uid ensures v in MemberUids(t', g) <==> v in MemberUids(t, g) - {u} {
      assert v in MemberUids(t', g) <==> (g, v) in t'.members;
      assert v in MemberUids(t, g) <==> (g, v) in t.members;
    }
    forall q | q != g ensures MemberUids(t', q) == MemberUids(t, q) { SameMembers(t, t', q); }
  }

  lemma RolesMoveNobody(t: Tables, g: RoomId, u: Uid, role: Role)
    ensures forall q :: MemberUids(UpdateRole(t, g, u, role), q) == MemberUids(t, q)
  {
    forall q ensures MemberUids(UpdateRole(t, g, u, role), q) == MemberUids(t, q) {
      SameMembers(t, UpdateRole(t, g, u, role), q);
    }
  }

  lemma DeleteMemberOk(t: Tables, g: RoomId, u: Uid)
    requires WellFormed(t)
    ensures WellFormed(DeleteMember(t, g, u))
    ensures MemberUids(DeleteMember(t, g, u), g) == MemberUids(t, g) - {u}
    ensures forall q :: q != g ==> MemberUids(DeleteMember(t, g, u), q) == MemberUids(t, q)
  {
    var t' := DeleteMember(t, g, u);
    assert forall q, v :: IsOwner(t', q, v) ==> IsOwner(t, q, v);
    DeleteLeavesOthers(t, g, u);
  }

  lemma UpdateRoleOk(t: Tables, g: RoomId, u: Uid, role: Role)
    requires WellFormed(t) && role != Owner
    ensures WellFormed(UpdateRole(t, g, u, role))
    ensures forall q :: MemberUids(UpdateRole(t, g, u, role), q) == MemberUids(t, q)
  {
    var t' := UpdateRole(t, g, u, role);
    assert forall k :: k in t'.members <==> k in t.members;
    assert forall k :: k in t'.members ==> t'.members[k].id == t.members[k].id;
    forall q, v | IsOwner(t', q, v) ensures IsOwner(t, q, v) {}
    RolesMoveNobody(t, g, u, role);
  }

  lemma SkipRoomIdsOk(t: Tables, n: nat)
    requires WellFormed(t)
    ensures WellFormed(SkipRoomIds(t, n))
  {
    assert forall q, v :: IsOwner(SkipRoomIds(t, n), q, v) <==> IsOwner(t, q, v);
  }

  lemma TouchOk(t: Tables, r: RoomId, id: MsgId, now: Time, cs: map<(Uid, RoomId), Contact>)
    requires WellFormed(t)
    ensures WellFormed(Touch(t, r, id, now).(contacts := cs))
  {
    TouchKeepsPeople(t, r, id, now, cs);
    PeopleKeepRows(t, Touch(t, r, id, now).(contacts := cs));
    MembersKeepRows(t, Touch(t, r, id, now).(contacts := cs));
  }

  lemma TouchKeepsPeople(t: Tables, r: RoomId, id: MsgId, now: Time, cs: map<(Uid, RoomId), Contact>)
    ensures var t' := Touch(t, r, id, now).(contacts := cs);
            SamePeople(t, t') && t'.nextMember == t.nextMember
  {}

  lemma MembersKeepRows(t: Tables, t': Tables)
    requires MemberRows(t) && t'.members == t.members && t'.nextMember == t.nextMember && t'.groups == t.groups
    ensures MemberRows(t')
  {
    assert forall q, v :: IsOwner(t', q, v) <==> IsOwner(t, q, v);
  }
}
