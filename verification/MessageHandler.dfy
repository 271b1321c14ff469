/** internal/message/handler.go. */
module MessageHandlers {
  import opened Domain
  import opened Tables
  import opened MessageLog
  import opened Hubs
  import opened MemberCaches
  import opened RoomStores
  import Chats
  import opened Service
  import Requests

  type SendRequest = Chats.SendRequest
  type SendTimes = Chats.SendTimes

  class MessageHandler {
    const messages: MessageStore
    const rooms: RoomStore
    const hub: Hub
    const cache: MemberCache?

    constructor (messages: MessageStore, rooms: RoomStore, hub: Hub, cache: MemberCache?)
      ensures this.messages == messages && this.rooms == rooms && this.hub == hub && this.cache == cache
    {
      this.messages, this.rooms, this.hub, this.cache := messages, rooms, hub, cache;
    }

    // What the helpers of one request rely on, also halfway through it.
    ghost predicate Sound()
      reads rooms, hub, cache
    {
      && DetailRows(rooms.db)
      && hub.Valid() && OneUidEach(Pairs(hub.conns))
      && CacheOk(cache, rooms.db)
    }

    ghost predicate Valid()
      reads rooms, messages, hub, cache
    {
      Sound() && Chats.ChatOk(View(rooms, messages, hub))
    }

    // What one lookup at `now` does to the cache: a live entry is used as it is, anything
    // else costs one query and leaves an entry good for the whole time to live.
    twostate predicate LookedUp(g: RoomId, now: Time)
      reads cache
    {
      cache != null ==>
        && cache.clock == now
        && cache.ExpiryOf(g)
           == (if now < old(cache.ExpiryOf(g)) then old(cache.ExpiryOf(g)) else now + 300)
        && Count(cache.queries, g) == old(Count(cache.queries, g)) + (if now < old(cache.ExpiryOf(g)) then 0 else 1)
    }

    // Lookups invalidate nothing.
    twostate predicate DropsKept()
      reads cache
    {
      cache != null ==> cache.drops == old(cache.drops)
    }

    method GroupMemberUIDs(g: RoomId, now: Time) returns (uids: seq<Uid>)
      requires CacheOk(cache, rooms.db) && g in rooms.db.groups && CacheBefore(cache, now)
      modifies cache
      ensures CacheOk(cache, rooms.db)
      ensures DropsKept()
      ensures NoDup(uids) && ToSet(uids) == MemberUids(rooms.db, g)
      ensures LookedUp(g, now)
    {
      if cache != null {
        var hit := cache.Get(g, now);
        if hit.Some? {
          return hit.value;
        }
      }
      var members := rooms.ListMembers(g);
      uids := UidsOnly(members);
      if cache != null {
        Remember(cache, g, uids, now);
      }
    }

    // The fill that follows a query.
    method Remember(c: MemberCache, g: RoomId, uids: seq<Uid>, now: Time)
      requires CacheOk(c, rooms.db) && c.clock <= now && g !in c.entries
      requires g in rooms.db.groups && NoDup(uids) && ToSet(uids) == MemberUids(rooms.db, g)
      modifies c
      ensures CacheOk(c, rooms.db) && c.clock == now && c.ExpiryOf(g) == now + 300 && c.drops == old(c.drops)
      ensures Count(c.queries, g) == old(Count(c.queries, g)) + 1
    {
      c.NoteQuery(g);
      c.Set(g, uids, MEMBER_CACHE_TTL, now);
    }

    // The cached fast path gives the same answer as the uncached rule.
    method CanPost(roomID: RoomId, rm: Room, uid: Uid, now: Time) returns (ok: bool)
      requires DetailRows(rooms.db) && CacheOk(cache, rooms.db) && CacheBefore(cache, now)
      requires roomID in rooms.db.rooms && rm == rooms.db.rooms[roomID]
      modifies cache
      ensures CacheOk(cache, rooms.db) && CacheBefore(cache, now)
      ensures DropsKept()
      ensures ok == IsParticipant(rooms.db, roomID, uid)
      ensures !rm.hot && rm.kind.GroupRoom? ==> LookedUp(roomID, now)
      ensures rm.hot || rm.kind.FriendRoom? ==> cache != null ==> unchanged(cache)
    {
      if rm.hot {
        return true;
      }
      if rm.kind.GroupRoom? {
        var uids := GroupMemberUIDs(roomID, now);
        ParticipantsAreParticipants(rooms.db, roomID, uid);
        assert uid in uids <==> uid in ToSet(uids);
        return uid in uids;
      }
      var friend := rooms.GetFriendByRoomID(roomID);
      if friend.None? {
        return false;
      }
      return friend.value.uid1 == uid || friend.value.uid2 == uid;
    }

    method ResolveRecipients(roomID: RoomId, rm: Room, now: Time) returns (uids: Option<seq<Uid>>)
      requires DetailRows(rooms.db) && CacheOk(cache, rooms.db) && CacheBefore(cache, now)
      requires roomID in rooms.db.rooms && rm.kind == rooms.db.rooms[roomID].kind
      modifies cache
      ensures CacheOk(cache, rooms.db) && CacheBefore(cache, now)
      ensures DropsKept()
      ensures uids.Some? && NoDup(uids.value) && ToSet(uids.value) == Participants(rooms.db, roomID)
      ensures rm.kind.GroupRoom? ==> LookedUp(roomID, now)
      ensures rm.kind.FriendRoom? ==> cache != null ==> unchanged(cache)
    {
      if rm.kind.GroupRoom? {
        var members := GroupMemberUIDs(roomID, now);
        RecipientsAreParticipants(rooms.db, roomID, members);
        return Some(Recipients(rm.kind, members, None));
      }
      var friend := rooms.GetFriendByRoomID(roomID);
      if friend.None? {
        return None;
      }
      RecipientsAreParticipants(rooms.db, roomID, []);
      return Some(Recipients(rm.kind, [], friend));
    }

    method Broadcast(roomID: RoomId, rm: Room, msg: Message, now: Time)
      requires Sound() && CacheBefore(cache, now)
      requires roomID in rooms.db.rooms && rm == rooms.db.rooms[roomID]
      modifies hub`wire, cache
      ensures hub.Valid() && CacheOk(cache, rooms.db) && CacheBefore(cache, now)
      ensures DropsKept()
      ensures hub.wire == Stamp(old(hub.wire), Reached(Pairs(hub.conns), rm.hot, Participants(rooms.db, roomID)),
                ChatMessage(msg))
      ensures !rm.hot && rm.kind.GroupRoom? ==> LookedUp(roomID, now)
      ensures rm.hot || rm.kind.FriendRoom? ==> cache != null ==> unchanged(cache)
    {
      var payload := ChatMessage(msg);
      if rm.hot {
        hub.BroadcastAll(payload);
        assert Reached(Pairs(hub.conns), true, {}) == Reached(Pairs(hub.conns), true, Participants(rooms.db, roomID));
        return;
      }
      var recipients := ResolveRecipients(roomID, rm, now);
      if recipients.None? {
        return;
      }
      FanOutIsOneStamp(hub.wire, hub.conns, recipients.value, payload);
      hub.SendToUsers(recipients.value, payload);
    }

    method TrackActivity(roomID: RoomId, rm: Room, sender: Uid, id: MsgId, at: SendTimes)
      requires DetailRows(rooms.db) && CacheOk(cache, rooms.db) && CacheBefore(cache, at.tally)
      requires roomID in rooms.db.rooms && rm == rooms.db.rooms[roomID]
      modifies rooms, cache
      ensures CacheOk(cache, rooms.db) && CacheBefore(cache, at.tally)
      ensures DropsKept()
      ensures rooms.db == Chats.Track(old(rooms.db), roomID, sender, id, at)
      ensures !rm.hot && rm.kind.GroupRoom? ==> LookedUp(roomID, at.tally)
      ensures rm.hot || rm.kind.FriendRoom? ==> cache != null ==> unchanged(cache)
    {
      ghost var t := rooms.db;
      rooms.TouchRoom(roomID, id, at.touch);
      CacheStaysOk(t, rooms.db, cache);
      if !rm.hot {
        var recipients := ResolveRecipients(roomID, rm, at.tally);
        if recipients.Some? {
          ghost var touched := rooms.db;
          CountUnread(roomID, sender, recipients.value, at);
          CacheStaysOk(touched, rooms.db, cache);
        }
      }
    }

    method CountUnread(roomID: RoomId, sender: Uid, recipients: seq<Uid>, at: SendTimes)
      requires NoDup(recipients)
      modifies rooms
      ensures var bumped := BumpSet(old(rooms.db).contacts, roomID, ToSet(recipients) - {sender}, at.bump);
              rooms.db == old(rooms.db).(contacts := ClearUnread(bumped, sender, roomID, at.reset))
    {
      var others := Others(recipients, sender);
      BumpRowsIsBumpSet(rooms.db.contacts, roomID, others, at.bump);
      rooms.BumpUnread(roomID, others, at.bump);
      rooms.ResetUnread(sender, roomID, at.reset);
    }

    // The checks of send: the request, the room, the sender.
    method Admit(uid: Uid, req: SendRequest, now: Time) returns (status: Status)
      requires DetailRows(rooms.db) && CacheOk(cache, rooms.db) && CacheBefore(cache, now)
      modifies cache
      ensures CacheOk(cache, rooms.db) && CacheBefore(cache, now)
      ensures DropsKept()
      ensures status == Chats.SendReply(rooms.db, uid, req)
      ensures status == Ok && IsColdGroup(rooms.db, req.room) ==> LookedUp(req.room, now)
      ensures status != Ok && cache != null ==>
                Count(cache.queries, req.room) <= old(Count(cache.queries, req.room)) + 1
      ensures status == Ok && !IsColdGroup(rooms.db, req.room) && cache != null ==> unchanged(cache)
    {
      if req.room == 0 {
        return BadRequest;
      }
      var kind := if req.kind == 0 then TYPE_TEXT else req.kind;
      if kind == TYPE_TEXT || kind == TYPE_EMOJI {
        if req.content == "" { return BadRequest; }
      } else if kind == TYPE_IMAGE || kind == TYPE_VIDEO {
        if req.extra.None? || req.extra.value == "" { return BadRequest; }
      } else {
        return BadRequest;
      }
      var rm := rooms.GetRoom(req.room);
      if rm.None? {
        return NotFound;
      }
      var ok := CanPost(req.room, rm.value, uid, now);
      return if ok then Ok else Forbidden;
    }

    method Send(uid: Uid, req: SendRequest, at: SendTimes) returns (status: Status)
      requires Valid() && at.Ordered() && CacheBefore(cache, at.check)
      modifies rooms, messages, hub`wire, cache
      ensures Valid() && CacheBefore(cache, at.tally)
      ensures DropsKept()
      ensures status == Chats.Reply(old(View(rooms, messages, hub)), Chats.Send(uid, req, at))
      ensures View(rooms, messages, hub) == Chats.Step(old(View(rooms, messages, hub)), Chats.Send(uid, req, at))
      ensures status == Ok ==>
                var id := old(messages.db.nextId);
                id in messages.db.rows && Requests.Carries(messages.db.rows[id], uid, req)
      // Three lookups, at most one membership query.
      ensures cache != null ==> Count(cache.queries, req.room) <= old(Count(cache.queries, req.room)) + 1
    {
      ghost var before := View(rooms, messages, hub);
      status := Admit(uid, req, at.check);
      if status == Ok {
        Chats.SendKeepsOk(before, uid, req, at);
        Post(req.room, rooms.GetRoom(req.room).value, uid, req, at);
      }
    }

    // The part of send that follows admission.
    method Post(roomID: RoomId, rm: Room, uid: Uid, req: SendRequest, at: SendTimes)
      requires Sound() && at.Ordered() && CacheBefore(cache, at.insert)
      requires roomID in rooms.db.rooms && rm == rooms.db.rooms[roomID]
      requires roomID == req.room
      modifies rooms, messages, hub`wire, cache
      ensures hub.Valid() && CacheOk(cache, rooms.db) && CacheBefore(cache, at.tally)
      ensures DropsKept()
      ensures var c := old(View(rooms, messages, hub));
              View(rooms, messages, hub) == Chats.AfterSend(c, uid, req, at)
      ensures var id := old(messages.db.nextId);
              id in messages.db.rows && Requests.Carries(messages.db.rows[id], uid, req)
      ensures cache != null ==>
                Count(cache.queries, roomID) <= old(Count(cache.queries, roomID))
                                              + if at.tally < old(cache.ExpiryOf(roomID)) then 0 else 1
    {
      ghost var c := View(rooms, messages, hub);
      var kind := if req.kind == 0 then TYPE_TEXT else req.kind;
      var msg := Message(0, roomID, uid, req.content, kind, req.replyTo, false, None, 0);
      if req.extra.Some? && req.extra.value != "" {
        msg := msg.(extra := req.extra);
      }
      var id := messages.Insert(msg, at.insert);
      msg := msg.(id := id, created := at.stamp);
      assert messages.db == InsertMessage(c.m, Chats.NewMessage(c, uid, req, at), at.insert);
      assert msg == Chats.NewMessage(c, uid, req, at).(created := at.stamp);
      Broadcast(roomID, rm, msg, at.push);
      TrackActivity(roomID, rm, uid, id, at);
    }

    method Recall(uid: Uid, id: MsgId, when: Chats.RecallTimes) returns (status: Status)
      requires Valid() && CacheBefore(cache, when.push)
      modifies messages, hub`wire, cache
      ensures Valid() && CacheBefore(cache, when.push)
      ensures DropsKept()
      ensures status == Chats.Reply(old(View(rooms, messages, hub)), Chats.Recall(uid, id, when))
      ensures View(rooms, messages, hub) == Chats.Step(old(View(rooms, messages, hub)), Chats.Recall(uid, id, when))
    {
      var found := messages.GetByID(id);
      if found.None? {
        return NotFound;
      }
      var msg := found.value;
      var role := Member;
      var member := rooms.GetMember(msg.room, uid);
      if member.Some? {
        role := member.value.role;
      }
      if !CanRecall(msg.from, uid, role, msg.created, when.check) {
        return Forbidden;
      }
      Chats.RecallKeepsOk(View(rooms, messages, hub), id);
      Retract(id, msg, when.push);
      return Ok;
    }

    // The part of recall that follows permission.
    method Retract(id: MsgId, found: Message, now: Time)
      requires Sound() && CacheBefore(cache, now)
      requires id in messages.db.rows && found == messages.db.rows[id]
      modifies messages, hub`wire, cache
      ensures hub.Valid() && CacheOk(cache, rooms.db) && CacheBefore(cache, now)
      ensures DropsKept()
      ensures View(rooms, messages, hub) == Chats.AfterRecall(old(View(rooms, messages, hub)), id)
    {
      messages.SetDeleted(id);
      var msg := found.(deleted := true);
      var rm := rooms.GetRoom(msg.room);
      if rm.Some? {
        Broadcast(msg.room, rm.value, msg, now);
      }
    }

    // A page of the room's history; anyone signed in may read it.
    method Page(roomID: RoomId, before: MsgId, asked: Option<int>) returns (page: seq<Message>)
      requires LogOk(messages.db)
      ensures asked.Some? && 1 <= asked.value <= 100 ==> IsPage(messages.db, roomID, before, asked.value, page)
      ensures asked.None? || asked.value < 1 || asked.value > 100 ==> IsPage(messages.db, roomID, before, 20, page)
    {
      var limit := 20;
      if asked.Some? && asked.value > 0 && asked.value <= 100 {
        limit := asked.value;
      }
      page := messages.ListByRoomCursor(roomID, before, limit);
      HeadIsPage(messages.db, roomID, before, limit);
    }
  }

  // Only these rooms are looked up through the cache.
  predicate IsColdGroup(t: Tables, r: RoomId) {
    r in t.rooms && !t.rooms[r].hot && t.rooms[r].kind.GroupRoom?
  }

  // The uid column of a listing.
  method UidsOnly(members: seq<Listed>) returns (uids: seq<Uid>)
    ensures uids == UidsOf(members)
  {
    uids := [];
    for i := 0 to |members|
      invariant uids == UidsOf(members)[..i]
    {
      uids := uids + [members[i].uid];
    }
  }

  // Every recipient but the sender, in order.
  method Others(uids: seq<Uid>, sender: Uid) returns (others: seq<Uid>)
    requires NoDup(uids)
    ensures NoDup(others) && ToSet(others) == ToSet(uids) - {sender}
  {
    others := [];
    for i := 0 to |uids|
      invariant NoDup(others) && ToSet(others) == ToSet(uids[..i]) - {sender}
    {
      Appended(uids[..i], uids[i]);
      Appended(others, uids[i]);
      assert uids[..i + 1] == uids[..i] + [uids[i]];
      if uids[i] != sender {
        others := others + [uids[i]];
      }
    }
    assert uids[..|uids|] == uids;
  }

  // Activity tracking changes neither who belongs to a room nor what the cache may say.
  lemma CacheStaysOk(t: Tables, t': Tables, cache: MemberCache?)
    requires DetailRows(t) && SamePeople(t, t')
    ensures DetailRows(t') && (CacheOk(cache, t) ==> CacheOk(cache, t'))
    ensures forall r :: Participants(t', r) == Participants(t, r)
  {}
}
