/** internal/call/handler.go: call invitations. */
module CallHandlers {
  import opened Domain
  import opened Tables
  import opened MessageLog
  import opened Hubs
  import opened RoomStores
  import Chats
  import opened Service

  class CallHandler {
    const rooms: RoomStore
    const hub: Hub

    constructor (rooms: RoomStore, hub: Hub)
      ensures this.rooms == rooms && this.hub == hub
    {
      this.rooms, this.hub := rooms, hub;
    }

    // The uncached recipient computation; for a participant it names everyone else in the
    // room, exactly whom a message from the same uid would count as unread for.
    method OtherParticipants(room: RoomId, rm: Room, uid: Uid) returns (out: seq<Uid>)
      requires DetailRows(rooms.db) && room in rooms.db.rooms && rm == rooms.db.rooms[room]
      ensures NoDup(out) && ToSet(out) == Chats.Callees(rooms.db, room, uid)
      ensures IsParticipant(rooms.db, room, uid) && !rm.hot ==> ToSet(out) == Participants(rooms.db, room) - {uid}
    {
      if rm.kind.GroupRoom? {
        var members := rooms.ListMembers(room);
        ghost var uids := UidsOf(members);
        out := [];
        for i := 0 to |members|
          invariant NoDup(out) && ToSet(out) == ToSet(uids[..i]) - {uid}
        {
          Appended(uids[..i], uids[i]);
          Appended(out, uids[i]);
          assert uids[..i + 1] == uids[..i] + [uids[i]];
          if members[i].uid != uid {
            out := out + [members[i].uid];
          }
        }
        assert uids[..|members|] == uids;
        return;
      }
      var friend := rooms.GetFriendByRoomID(room);
      if friend.None? {
        return [];
      }
      var peer := friend.value.uid1;
      if peer == uid {
        peer := friend.value.uid2;
      }
      return [peer];
    }

    method Invite(uid: Uid, room: RoomId, mode: string) returns (status: Status)
      requires DetailRows(rooms.db) && hub.Valid() && OneUidEach(Pairs(hub.conns))
      modifies hub`wire
      ensures hub.Valid()
      ensures status == if room == 0 then BadRequest
                        else if room !in rooms.db.rooms then NotFound
                        else if !IsParticipant(rooms.db, room, uid) then Forbidden
                        else Ok
      ensures hub.wire == if status == Ok
                          then Stamp(old(hub.wire),
                                     Reached(Pairs(hub.conns), false, Chats.Callees(rooms.db, room, uid)),
                                     CallInvite(room, uid, Chats.CallMode(mode)))
                          else old(hub.wire)
    {
      if room == 0 {
        return BadRequest;
      }
      var callMode := mode;
      if callMode != "audio" && callMode != "video" {
        callMode := "audio";
      }
      var rm := rooms.GetRoom(room);
      if rm.None? {
        return NotFound;
      }
      if !IsParticipant(rooms.db, room, uid) {
        return Forbidden;
      }
      var recipients := OtherParticipants(room, rm.value, uid);
      var payload := CallInvite(room, uid, callMode);
      FanOutIsOneStamp(hub.wire, hub.conns, recipients, payload);
      hub.SendToUsers(recipients, payload);
      return Ok;
    }
  }
}
