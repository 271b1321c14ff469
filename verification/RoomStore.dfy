/** internal/room/store.go: the handle through which handlers reach the room tables. */
module RoomStores {
  import opened Domain
  import opened Tables

  // The key under which a pair's 1:1 room is stored.
  function Canonical(a: Uid, b: Uid): Friend {
    if a > b then Friend(b, a) else Friend(a, b)
  }

  class RoomStore {
    var db: Tables

    constructor ()
      ensures db == Tables(map[], 1, map[], map[], map[], 1, map[])
    {
      db := Tables(map[], 1, map[], map[], map[], 1, map[]);
    }

    method CreateGroupRoom(owner: Uid, name: string, avatar: string, now: Time) returns (roomID: RoomId)
      modifies this
      ensures roomID == old(db.nextRoom) && db == InsertGroupRoom(old(db), owner, name, avatar, now)
      // Active now, naming no message, with the asked name and avatar and an owner.
      ensures db.rooms == old(db).rooms[roomID := Room(GroupRoom, false, now, 0)]
      ensures db.groups == old(db).groups[roomID := Group(name, avatar)]
      ensures db.members == old(db).members[(roomID, owner) := MemberRow(old(db).nextMember, Owner)]
    {
      roomID := db.nextRoom;
      db := db.(rooms := db.rooms[roomID := Room(GroupRoom, false, now, 0)], nextRoom := roomID + 1);
      db := db.(groups := db.groups[roomID := Group(name, avatar)]);
      var row := MemberRow(db.nextMember, Owner);
      db := db.(members := db.members[(roomID, owner) := row], nextMember := db.nextMember + 1);
    }

    method SkipIds(n: nat)
      modifies this
      ensures db == SkipRoomIds(old(db), n)
    {
      db := db.(nextRoom := db.nextRoom + n);
    }

    // The unique key (group_id, uid) rejects a second row for the same member.
    method AddMember(g: RoomId, u: Uid, role: Role) returns (ok: bool)
      modifies this
      ensures ok == ((g, u) !in old(db).members)
      ensures db == if ok then InsertMember(old(db), g, u, role) else old(db)
      ensures ok ==> db.members == old(db).members[(g, u) := MemberRow(old(db).nextMember, role)]
    {
      ok := (g, u) !in db.members;
      if ok {
        db := db.(members := db.members[(g, u) := MemberRow(db.nextMember, role)], nextMember := db.nextMember + 1);
      }
    }

    method RemoveMember(g: RoomId, u: Uid)
      modifies this
      ensures db == DeleteMember(old(db), g, u)
      ensures forall q :: MemberUids(db, q) == old(MemberUids(db, q)) - (if q == g then {u} else {})
    {
      ghost var before := db;
      DeleteLeavesOthers(before, g, u);
      db := db.(members := db.members - {(g, u)});
    }

    method SetRole(g: RoomId, u: Uid, role: Role)
      modifies this
      ensures db == UpdateRole(old(db), g, u, role)
      ensures forall q :: MemberUids(db, q) == old(MemberUids(db, q))
      ensures (g, u) in db.members ==> db.members[(g, u)].role == role
      ensures (g, u) !in old(db).members ==> db == old(db)
    {
      RolesMoveNobody(db, g, u, role);
      if (g, u) in db.members {
        db := db.(members := db.members[(g, u) := db.members[(g, u)].(role := role)]);
      }
    }

    // Each member once, as stored: the owner, then admins, then the others, each by row id.
    function ListMembers(g: RoomId): (ms: seq<Listed>)
      reads this
      ensures ms == Listing(db, g) && InOrder(ms)
      ensures NoDup(UidsOf(ms)) && ToSet(UidsOf(ms)) == MemberUids(db, g)
    {
      ListingIsMembership(db, g);
      Listing(db, g)
    }

    function GetMember(g: RoomId, u: Uid): Option<MemberRow>
      reads this
    {
      if (g, u) in db.members then Some(db.members[(g, u)]) else None
    }

    function GetRoom(r: RoomId): Option<Room>
      reads this
    {
      if r in db.rooms then Some(db.rooms[r]) else None
    }

    function GetFriendByRoomID(r: RoomId): Option<Friend>
      reads this
    {
      if r in db.friends then Some(db.friends[r]) else None
    }

    // Ordered and unordered calls reach the same pair; an existing room is returned as it is.
    method GetOrCreateFriendRoom(a: Uid, b: Uid, now: Time) returns (room: Option<RoomId>)
      modifies this
      ensures room.None? <==> a == b
      ensures room.None? ==> db == old(db)
      ensures room.Some? && Canonical(a, b) in old(db).friends.Values ==> db == old(db)
      ensures room.Some? && Canonical(a, b) !in old(db).friends.Values ==>
                room.value == old(db).nextRoom
                && db == InsertFriendRoom(old(db), Canonical(a, b).uid1, Canonical(a, b).uid2, now)
                && db.rooms == old(db).rooms[room.value := Room(FriendRoom, false, now, 0)]
      ensures room.Some? ==> room.value in db.friends && db.friends[room.value] == Canonical(a, b)
    {
      if a == b { return None; }
      var uid1, uid2 := a, b;
      if uid1 > uid2 { uid1, uid2 := uid2, uid1; }
      if existing :| existing in db.friends && db.friends[existing] == Friend(uid1, uid2) {
        return Some(existing);
      }
      var roomID := db.nextRoom;
      db := db.(rooms := db.rooms[roomID := Room(FriendRoom, false, now, 0)], nextRoom := roomID + 1);
      db := db.(friends := db.friends[roomID := Friend(uid1, uid2)]);
      return Some(roomID);
    }

    method TouchRoom(r: RoomId, id: MsgId, now: Time)
      modifies this
      ensures db == Touch(old(db), r, id, now)
      ensures SamePeople(old(db), db) && db.contacts == old(db).contacts
      ensures forall q :: q in db.rooms && q != r ==> db.rooms[q] == old(db).rooms[q]
      ensures r in db.rooms ==> db.rooms[r].lastMsgId == id && db.rooms[r].activeTime == now
    {
      if r in db.rooms {
        db := db.(rooms := db.rooms[r := db.rooms[r].(activeTime := now, lastMsgId := id)]);
      }
    }

    // Builds one value row per recipient, then runs the upsert over them in order.
    method BumpUnread(r: RoomId, uids: seq<Uid>, now: Time)
      modifies this
      ensures db == old(db).(contacts := BumpRows(old(db).contacts, r, uids, now))
    {
      if |uids| == 0 { return; }
      var args: seq<(Uid, RoomId)> := [];
      for i := 0 to |uids|
        invariant |args| == i
        invariant forall j :: 0 <= j < i ==> args[j] == (uids[j], r)
      {
        args := args + [(uids[i], r)];
      }
      for i := 0 to |args|
        invariant db == old(db).(contacts := BumpRows(old(db).contacts, r, uids[..i], now))
      {
        assert uids[..i + 1][..i] == uids[..i];
        var key := args[i];
        db := db.(contacts := db.contacts[key :=
          if key in db.contacts then Contact(now, db.contacts[key].unread + 1) else Contact(now, 1)]);
      }
      assert uids[..|uids|] == uids;
    }

    method ResetUnread(u: Uid, r: RoomId, now: Time)
      modifies this
      ensures db == old(db).(contacts := ClearUnread(old(db).contacts, u, r, now))
      ensures forall v, q :: Unread(db.contacts, v, q) == if v == u && q == r then 0 else old(Unread(db.contacts, v, q))
      ensures (u, r) in old(db).contacts ==> db.contacts[(u, r)].activeTime == old(db).contacts[(u, r)].activeTime
    {
      var key := (u, r);
      if key in db.contacts {
        db := db.(contacts := db.contacts[key := db.contacts[key].(unread := 0)]);
      } else {
        db := db.(contacts := db.contacts[key := Contact(now, 0)]);
      }
    }
  }
}
