/** The shared state of a running service and the view a user has of it. */
module Service {
  import opened Domain
  import opened Tables
  import opened MessageLog
  import opened Hubs
  import opened MemberCaches
  import opened RoomStores
  import opened Chats

  ghost function View(rooms: RoomStore, messages: MessageStore, hub: Hub): Chat
    reads rooms, messages, hub
  {
    Chat(rooms.db, messages.db, Pairs(hub.conns), hub.wire)
  }

  // An attached cache tells the truth and has been filled sparingly.
  ghost predicate CacheOk(cache: MemberCache?, t: Tables)
    reads cache
  {
    cache != null ==> Coherent(cache.entries, t) && cache.Thrifty()
  }

  ghost predicate CacheBefore(cache: MemberCache?, now: Time)
    reads cache
  {
    cache != null ==> cache.clock <= now
  }
}
