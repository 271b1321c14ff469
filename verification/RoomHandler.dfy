/** internal/room/handler.go. */
module RoomHandlers {
  import opened Domain
  import opened Tables
  import opened MemberCaches
  import opened RoomStores
  import Chats
  import opened Service

  class RoomHandler {
    const store: RoomStore
    const cache: MemberCache?

    constructor (store: RoomStore, cache: MemberCache?)
      ensures this.store == store && this.cache == cache
    {
      this.store, this.cache := store, cache;
    }

    ghost predicate Valid()
      reads store, cache
    {
      WellFormed(store.db) && PairsUnique(store.db) && CacheOk(cache, store.db)
    }

    // Handlers of this file read no clock on the cache's behalf.
    twostate predicate ClockKept()
      reads cache
    {
      cache != null ==> cache.clock == old(cache.clock)
    }

    // Group g has been invalidated n times.
    twostate predicate Dropped(g: RoomId, n: nat)
      reads cache
    {
      cache != null ==> forall q :: Count(cache.drops, q) == old(Count(cache.drops, q)) + if q == g then n else 0
    }

    // Restores coherence after the membership of group g, and of no other, has changed.
    method InvalidateCache(g: RoomId, ghost before: Tables)
      requires CacheOk(cache, before) && before.groups.Keys <= store.db.groups.Keys
      requires forall q :: q != g ==> MemberUids(store.db, q) == MemberUids(before, q)
      modifies cache
      ensures CacheOk(cache, store.db) && ClockKept() && Dropped(g, 1)
    {
      if cache == null {
        return;
      }
      cache.Invalidate(g);
    }

    method MarkRead(uid: Uid, room: RoomId, now: Time) returns (status: Status)
      requires Valid()
      modifies store
      ensures Valid()
      ensures status == Ok
      ensures store.db == old(store.db).(contacts := ClearUnread(old(store.db).contacts, uid, room, now))
    {
      TouchOk(store.db, 0, 0, now, ClearUnread(store.db.contacts, uid, room, now));
      store.ResetUnread(uid, room, now);
      return Ok;
    }

    method CreateFriendRoom(uid: Uid, other: Uid, now: Time) returns (status: Status, room: RoomId)
      requires Valid()
      modifies store
      ensures Valid()
      ensures status == if other == 0 || other == uid then BadRequest else Ok
      ensures store.db == if status == Ok then Chats.AfterFriendRoom(old(store.db), uid, other, now) else old(store.db)
      // The reply names the pair's one room.
      ensures status == Ok ==> room in store.db.friends && store.db.friends[room] == Canonical(uid, other)
      ensures status == Ok && room !in old(store.db).rooms ==>
                store.db.rooms == old(store.db).rooms[room := Room(FriendRoom, false, now, 0)]
    {
      if other == 0 {
        return BadRequest, 0;
      }
      if other == uid {
        return BadRequest, 0;
      }
      ghost var pair := Canonical(uid, other);
      InsertFriendRoomOk(store.db, pair.uid1, pair.uid2, now);
      var created := store.GetOrCreateFriendRoom(uid, other, now);
      return if created.None? then ServerError else Ok, created.GetOr(0);
    }

    method CreateGroup(uid: Uid, name: string, avatar: string, now: Time) returns (status: Status, room: RoomId)
      requires Valid()
      modifies store
      ensures Valid()
      ensures status == if name == "" then BadRequest else Ok
      ensures store.db == if status == Ok then InsertGroupRoom(old(store.db), uid, name, avatar, now) else old(store.db)
      ensures status == Ok ==> MemberUids(store.db, room) == {uid} && IsOwner(store.db, room, uid)
      ensures status == Ok ==> room !in old(store.db).rooms
      ensures status == Ok ==> room in store.db.rooms && store.db.rooms[room] == Room(GroupRoom, false, now, 0)
      ensures status == Ok ==> room in store.db.groups && store.db.groups[room] == Group(name, avatar)
    {
      if name == "" {
        return BadRequest, 0;
      }
      InsertGroupRoomOk(store.db, uid, name, avatar, now);
      InsertGroupRoomMembers(store.db, uid, name, avatar, now);
      // No entry can exist for an id that has never been a group: nothing to invalidate.
      room := store.CreateGroupRoom(uid, name, avatar, now);
      return Ok, room;
    }

    method AddMember(actor: Uid, g: RoomId, uid: Uid) returns (status: Status)
      requires Valid()
      modifies store, cache
      ensures Valid() && ClockKept()
      ensures Dropped(g, if status == Ok then 1 else 0)
      ensures status == if uid == 0 then BadRequest
                        else if (g, actor) !in old(store.db).members then Forbidden
                        else if (g, uid) in old(store.db).members then ServerError
                        else Ok
      ensures store.db == if status == Ok then InsertMember(old(store.db), g, uid, Member) else old(store.db)
      // Whoever joins joins as an ordinary member; nobody else's row changes.
      ensures status == Ok ==>
                store.db.members == old(store.db).members[(g, uid) := MemberRow(old(store.db).nextMember, Member)]
    {
      if uid == 0 {
        return BadRequest;
      }
      if store.GetMember(g, actor).None? {
        return Forbidden;
      }
      ghost var before := store.db;
      var ok := store.AddMember(g, uid, Member);
      if !ok {
        return ServerError;
      }
      InsertMemberOk(before, g, uid);
      InvalidateCache(g, before);
      return Ok;
    }

    method RemoveMember(actor: Uid, g: RoomId, target: Uid) returns (status: Status)
      requires Valid()
      modifies store, cache
      ensures Valid() && ClockKept()
      ensures Dropped(g, if status == Ok then 1 else 0)
      ensures status == if (g, actor) !in old(store.db).members then Forbidden
                        else if (g, target) !in old(store.db).members then NotFound
                        else if !CanRemoveMember(old(store.db).members[(g, actor)].role,
                                                 old(store.db).members[(g, target)].role) then Forbidden
                        else Ok
      ensures store.db == if status == Ok then DeleteMember(old(store.db), g, target) else old(store.db)
    {
      var actorRow := store.GetMember(g, actor);
      if actorRow.None? {
        return Forbidden;
      }
      var targetRow := store.GetMember(g, target);
      if targetRow.None? {
        return NotFound;
      }
      if !CanRemoveMember(actorRow.value.role, targetRow.value.role) {
        return Forbidden;
      }
      ghost var before := store.db;
      DeleteMemberOk(before, g, target);
      store.RemoveMember(g, target);
      InvalidateCache(g, before);
      return Ok;
    }

    method ExitGroup(uid: Uid, g: RoomId) returns (status: Status)
      requires Valid()
      modifies store, cache
      ensures Valid() && ClockKept()
      ensures Dropped(g, if status == Ok then 1 else 0)
      ensures status == if (g, uid) !in old(store.db).members || old(store.db).members[(g, uid)].role == Owner
                then Forbidden else Ok
      ensures store.db == if status == Ok then DeleteMember(old(store.db), g, uid) else old(store.db)
    {
      var row := store.GetMember(g, uid);
      if row.None? {
        return Forbidden;
      }
      if row.value.role == Owner {
        return Forbidden;
      }
      ghost var before := store.db;
      DeleteMemberOk(before, g, uid);
      store.RemoveMember(g, uid);
      InvalidateCache(g, before);
      return Ok;
    }

    // Roles are not cached: no invalidation, and none is needed.
    method SetAdmin(actor: Uid, g: RoomId, target: Uid, isAdmin: bool) returns (status: Status)
      requires Valid()
      modifies store
      ensures Valid()
      ensures status == if (g, actor) !in old(store.db).members
                || !CanSetAdmin(old(store.db).members[(g, actor)].role) then Forbidden else Ok
      ensures store.db == if status == Ok
                          then UpdateRole(old(store.db), g, target, if isAdmin then Admin else Member)
                          else old(store.db)
    {
      var row := store.GetMember(g, actor);
      if row.None? || !CanSetAdmin(row.value.role) {
        return Forbidden;
      }
      var role := Member;
      if isAdmin {
        role := Admin;
      }
      UpdateRoleOk(store.db, g, target, role);
      RolesAreNotCached(cache, store.db, UpdateRole(store.db, g, target, role));
      store.SetRole(g, target, role);
      return Ok;
    }
  }

  lemma RolesAreNotCached(cache: MemberCache?, t: Tables, t': Tables)
    requires t'.groups == t.groups && forall q :: MemberUids(t', q) == MemberUids(t, q)
    ensures CacheOk(cache, t) ==> CacheOk(cache, t')
  {}
}
