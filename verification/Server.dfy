/** cmd/server/main.go: one process that serves requests with shared stores. Requests are
    handled one at a time here; Interleaved.dfy lets them overlap. */
module Servers {
  import opened Domain
  import opened Tables
  import opened MessageLog
  import opened Hubs
  import opened MemberCaches
  import opened RoomStores
  import opened MessageHandlers
  import opened RoomHandlers
  import opened CallHandlers
  import Chats
  import opened Service

  // When a request first and last reads the clock on the cache's behalf.
  function Starts(op: Chats.Op, now: Time): Time {
    match op
    case Send(uid, req, at) => at.check
    case Recall(uid, id, when) => when.push
    case _ => now
  }

  function Ends(op: Chats.Op, now: Time): Time {
    match op
    case Send(uid, req, at) => at.tally
    case Recall(uid, id, when) => when.push
    case _ => now
  }

  ghost predicate Timely(op: Chats.Op, now: Time) {
    now <= Starts(op, now) && (op.Send? ==> op.at.Ordered())
  }

  ghost function ClockAfter(ops: seq<Chats.Op>, now: Time): Time {
    if ops == [] then now else Ends(ops[|ops| - 1], ClockAfter(ops[..|ops| - 1], now))
  }

  // No request starts before its predecessor has ended.
  ghost predicate RunTimely(ops: seq<Chats.Op>, now: Time) {
    forall i :: 0 <= i < |ops| ==> Timely(ops[i], ClockAfter(ops[..i], now))
  }

  // The group whose membership a request changes if it is accepted.
  function GroupOf(op: Chats.Op): Option<RoomId> {
    match op
    case AddMember(_, g, _) => Some(g)
    case RemoveMember(_, g, _) => Some(g)
    case ExitGroup(_, g) => Some(g)
    case _ => None
  }

  function ChangedGroup(c: Chats.Chat, op: Chats.Op): Option<RoomId> {
    if Chats.Reply(c, op) == Ok then GroupOf(op) else None
  }

  // How often a run changes the membership of group g.
  ghost function Changes(c: Chats.Chat, ops: seq<Chats.Op>, g: RoomId): nat {
    if ops == [] then 0
    else
      var n := |ops| - 1;
      Changes(c, ops[..n], g) + if ChangedGroup(Chats.Run(c, ops[..n]), ops[n]) == Some(g) then 1 else 0
  }

  class Server {
    const rooms: RoomStore
    const messages: MessageStore
    const hub: Hub
    const cache: MemberCache?
    const messageHandler: MessageHandler
    const roomHandler: RoomHandler
    const callHandler: CallHandler

    // Wires the handlers to the shared stores; the cache may be left out.
    constructor (cached: bool, ghost now: Time)
      ensures Valid() && CacheBefore(cache, now) && (cached <==> cache != null)
      ensures cache != null ==> cache.born == now && cache.queries == map[]
      ensures cache != null ==> cache.drops == map[] && cache.expiries == map[]
      ensures fresh(this) && fresh(rooms) && fresh(messages) && fresh(hub) && (cache != null ==> fresh(cache))
      ensures View(rooms, messages, hub).m.rows == map[] && View(rooms, messages, hub).online == {}
    {
      var roomStore := new RoomStore();
      var messageStore := new MessageStore();
      var connections := new Hub();
      var memberCache: MemberCache? := null;
      if cached {
        memberCache := new MemberCache(now);
      }
      rooms, messages, hub, cache := roomStore, messageStore, connections, memberCache;
      messageHandler := new MessageHandler(messageStore, roomStore, connections, memberCache);
      roomHandler := new RoomHandler(roomStore, memberCache);
      callHandler := new CallHandler(roomStore, connections);
    }

    ghost predicate Wired() {
      && messageHandler.rooms == rooms && messageHandler.messages == messages
      && messageHandler.hub == hub && messageHandler.cache == cache
      && roomHandler.store == rooms && roomHandler.cache == cache
      && callHandler.rooms == rooms && callHandler.hub == hub
    }

    ghost predicate Valid()
      reads rooms, messages, hub, cache
    {
      && Wired()
      && hub.Valid()
      && CacheOk(cache, rooms.db)
      && Chats.ChatOk(View(rooms, messages, hub))
    }

    // One invalidation for the group whose membership has changed, and no other.
    twostate predicate Dropped(changed: Option<RoomId>)
      reads cache
    {
      cache != null ==>
        forall g: RoomId :: Count(cache.drops, g) == old(Count(cache.drops, g)) + if changed == Some(g) then 1 else 0
    }

    // Sends and recalls read the cache at instants of their own.
    method HandleMessage(op: Chats.Op, ghost now: Time) returns (status: Status)
      requires Valid() && CacheBefore(cache, now) && Timely(op, now)
      requires op.Send? || op.Recall?
      modifies rooms, messages, hub`wire, cache
      ensures hub.Valid() && CacheOk(cache, rooms.db) && CacheBefore(cache, Ends(op, now))
      ensures status == Chats.Reply(old(View(rooms, messages, hub)), op)
      ensures View(rooms, messages, hub) == Chats.Step(old(View(rooms, messages, hub)), op)
      ensures Dropped(None)
    {
      match op
      case Send(uid, req, at) => status := messageHandler.Send(uid, req, at);
      case Recall(uid, id, when) => status := messageHandler.Recall(uid, id, when);
    }

    // These touch the tables only.
    method HandleRead(op: Chats.Op, ghost now: Time) returns (status: Status)
      requires Valid() && CacheBefore(cache, now) && op.MarkRead?
      modifies rooms
      ensures CacheOk(cache, rooms.db) && CacheBefore(cache, now)
      ensures status == Chats.Reply(old(View(rooms, messages, hub)), op)
      ensures View(rooms, messages, hub) == Chats.Step(old(View(rooms, messages, hub)), op)
    {
      status := roomHandler.MarkRead(op.uid, op.room, op.now);
    }

    method HandleRoom(op: Chats.Op, ghost now: Time) returns (status: Status)
      requires Valid() && CacheBefore(cache, now) && (op.CreateFriendRoom? || op.CreateGroup?)
      modifies rooms
      ensures CacheOk(cache, rooms.db) && CacheBefore(cache, now)
      ensures status == Chats.Reply(old(View(rooms, messages, hub)), op)
      ensures View(rooms, messages, hub) == Chats.Step(old(View(rooms, messages, hub)), op)
    {
      match op
      case CreateFriendRoom(uid, other, at) =>
        var room;
        status, room := roomHandler.CreateFriendRoom(uid, other, at);
      case CreateGroup(uid, name, avatar, at) =>
        var room;
        status, room := roomHandler.CreateGroup(uid, name, avatar, at);
    }

    method HandleAdmin(op: Chats.Op, ghost now: Time) returns (status: Status)
      requires Valid() && CacheBefore(cache, now) && op.SetAdmin?
      modifies rooms
      ensures CacheOk(cache, rooms.db) && CacheBefore(cache, now)
      ensures status == Chats.Reply(old(View(rooms, messages, hub)), op)
      ensures View(rooms, messages, hub) == Chats.Step(old(View(rooms, messages, hub)), op)
    {
      status := roomHandler.SetAdmin(op.uid, op.group, op.target, op.isAdmin);
    }

    // And these invalidate besides.
    method HandleAdd(op: Chats.Op, ghost now: Time) returns (status: Status)
      requires Valid() && CacheBefore(cache, now) && op.AddMember?
      modifies rooms, cache
      ensures CacheOk(cache, rooms.db) && CacheBefore(cache, now)
      ensures status == Chats.Reply(old(View(rooms, messages, hub)), op)
      ensures View(rooms, messages, hub) == Chats.Step(old(View(rooms, messages, hub)), op)
      ensures Dropped(if status == Ok then GroupOf(op) else None)
    {
      status := roomHandler.AddMember(op.uid, op.group, op.target);
    }

    method HandleRemove(op: Chats.Op, ghost now: Time) returns (status: Status)
      requires Valid() && CacheBefore(cache, now) && op.RemoveMember?
      modifies rooms, cache
      ensures CacheOk(cache, rooms.db) && CacheBefore(cache, now)
      ensures status == Chats.Reply(old(View(rooms, messages, hub)), op)
      ensures View(rooms, messages, hub) == Chats.Step(old(View(rooms, messages, hub)), op)
      ensures Dropped(if status == Ok then GroupOf(op) else None)
    {
      status := roomHandler.RemoveMember(op.uid, op.group, op.target);
    }

    method HandleExit(op: Chats.Op, ghost now: Time) returns (status: Status)
      requires Valid() && CacheBefore(cache, now) && op.ExitGroup?
      modifies rooms, cache
      ensures CacheOk(cache, rooms.db) && CacheBefore(cache, now)
      ensures status == Chats.Reply(old(View(rooms, messages, hub)), op)
      ensures View(rooms, messages, hub) == Chats.Step(old(View(rooms, messages, hub)), op)
      ensures Dropped(if status == Ok then GroupOf(op) else None)
    {
      status := roomHandler.ExitGroup(op.uid, op.group);
    }

    method HandleTables(op: Chats.Op, ghost now: Time) returns (status: Status)
      requires Valid() && CacheBefore(cache, now) && Chats.IsRoomOp(op)
      modifies rooms, cache
      ensures CacheOk(cache, rooms.db) && CacheBefore(cache, now)
      ensures status == Chats.Reply(old(View(rooms, messages, hub)), op)
      ensures View(rooms, messages, hub) == Chats.Step(old(View(rooms, messages, hub)), op)
      ensures Dropped(if status == Ok then GroupOf(op) else None)
    {
      if op.AddMember? {
        status := HandleAdd(op, now);
      } else if op.RemoveMember? {
        status := HandleRemove(op, now);
      } else if op.ExitGroup? {
        status := HandleExit(op, now);
      } else if op.SetAdmin? {
        status := HandleAdmin(op, now);
      } else if op.MarkRead? {
        status := HandleRead(op, now);
      } else {
        status := HandleRoom(op, now);
      }
    }

    // Calls and connections touch only the hub.
    method HandleHub(op: Chats.Op) returns (status: Status)
      requires Valid() && Chats.Admissible(View(rooms, messages, hub), op)
      requires op.Invite? || op.Connect? || op.Disconnect?
      modifies hub
      ensures hub.Valid()
      ensures status == Chats.Reply(old(View(rooms, messages, hub)), op)
      ensures View(rooms, messages, hub) == Chats.Step(old(View(rooms, messages, hub)), op)
    {
      match op
      case Invite(uid, room, mode) => status := callHandler.Invite(uid, room, mode);
      case Connect(uid, conn) => hub.Register(uid, conn); status := Ok;
      case Disconnect(uid, conn) => hub.Unregister(uid, conn); status := Ok;
    }

    // Transactions that were rolled back leave gaps in the ids.
    method SkipIds(op: Chats.Op) returns (status: Status)
      requires Valid() && op.SkipIds?
      modifies rooms, messages
      ensures CacheOk(cache, rooms.db)
      ensures status == Chats.Reply(old(View(rooms, messages, hub)), op)
      ensures View(rooms, messages, hub) == Chats.Step(old(View(rooms, messages, hub)), op)
    {
      rooms.SkipIds(op.rooms);
      messages.SkipIds(op.messages);
      status := Ok;
    }

    // One request: the reply and the new state are those of the cache-free description.
    method Handle(op: Chats.Op, ghost now: Time) returns (status: Status)
      requires Valid() && CacheBefore(cache, now) && Timely(op, now)
      requires Chats.Admissible(View(rooms, messages, hub), op)
      modifies rooms, messages, hub, cache
      ensures Valid() && CacheBefore(cache, Ends(op, now))
      ensures status == Chats.Reply(old(View(rooms, messages, hub)), op)
      ensures View(rooms, messages, hub) == Chats.Step(old(View(rooms, messages, hub)), op)
      ensures Dropped(ChangedGroup(old(View(rooms, messages, hub)), op))
    {
      Chats.StepKeepsOk(View(rooms, messages, hub), op);
      match op
      case Send(_, _, _) => status := HandleMessage(op, now);
      case Recall(_, _, _) => status := HandleMessage(op, now);
      case Invite(_, _, _) => status := HandleHub(op);
      case Connect(_, _) => status := HandleHub(op);
      case Disconnect(_, _) => status := HandleHub(op);
      case SkipIds(_, _) => status := SkipIds(op);
      case _ => status := HandleTables(op, now);
    }

    // Whole runs: any sequence of requests, with the cache attached or not and whatever
    // expires meanwhile, is answered as if every lookup had gone to the tables.
    method Serve(ops: seq<Chats.Op>, ghost now: Time) returns (replies: seq<Status>)
      requires Valid() && CacheBefore(cache, now) && RunTimely(ops, now)
      requires Chats.RunAdmissible(View(rooms, messages, hub), ops)
      modifies rooms, messages, hub, cache
      ensures Valid() && CacheBefore(cache, ClockAfter(ops, now))
      ensures View(rooms, messages, hub) == Chats.Run(old(View(rooms, messages, hub)), ops)
      // Membership queries made by sends and recalls, per group, since the cache was created.
      ensures cache != null ==> forall g ::
                && Count(cache.queries, g) <= 1 + Count(cache.drops, g) + Count(cache.expiries, g)
                && 300 * Count(cache.expiries, g) <= cache.clock - cache.born
      // Invalidations are the changes of membership.
      ensures cache != null ==> DropsAre(old(cache.drops), cache.drops, old(View(rooms, messages, hub)), ops)
      ensures Answered(old(View(rooms, messages, hub)), ops, replies, |ops|)
    {
      replies := [];
      ghost var start := View(rooms, messages, hub);
      for i := 0 to |ops|
        invariant Valid() && CacheBefore(cache, ClockAfter(ops[..i], now))
        invariant View(rooms, messages, hub) == Chats.Run(start, ops[..i])
        invariant Answered(start, ops, replies, i)
        invariant cache != null ==> DropsAre(old(cache.drops), cache.drops, start, ops[..i])
      {
        ghost var drops := if cache != null then cache.drops else map[];
        var status := ServeNext(ops, i, start, now);
        if cache != null { DropsNext(old(cache.drops), drops, cache.drops, start, ops, i); }
        AnsweredNext(start, ops, replies, i);
        replies := replies + [status];
      }
      assert ops[..|ops|] == ops;
      if cache != null {
        cache.QueryBounds();
      }
    }

    method ServeNext(ops: seq<Chats.Op>, i: nat, ghost start: Chats.Chat, ghost now: Time) returns (status: Status)
      requires i < |ops| && RunTimely(ops, now) && Chats.RunAdmissible(start, ops)
      requires Valid() && CacheBefore(cache, ClockAfter(ops[..i], now))
      requires View(rooms, messages, hub) == Chats.Run(start, ops[..i])
      modifies rooms, messages, hub, cache
      ensures Valid() && CacheBefore(cache, ClockAfter(ops[..i + 1], now))
      ensures View(rooms, messages, hub) == Chats.Run(start, ops[..i + 1])
      ensures status == Chats.Reply(Chats.Run(start, ops[..i]), ops[i])
      ensures Dropped(ChangedGroup(Chats.Run(start, ops[..i]), ops[i]))
    {
      assert Timely(ops[i], ClockAfter(ops[..i], now));
      Chats.PrefixAdmissible(start, ops, i);
      status := Handle(ops[i], ClockAfter(ops[..i], now));
      Chats.RunNext(start, ops, i);
      ClockNext(ops, i, now);
    }
  }

  ghost predicate Answered(start: Chats.Chat, ops: seq<Chats.Op>, replies: seq<Status>, n: nat) {
    && n <= |ops| && |replies| == n
    && forall i :: 0 <= i < n ==> replies[i] == Chats.Reply(Chats.Run(start, ops[..i]), ops[i])
  }

  lemma AnsweredNext(start: Chats.Chat, ops: seq<Chats.Op>, replies: seq<Status>, k: nat)
    requires k < |ops| && Answered(start, ops, replies, k)
    ensures Answered(start, ops, replies + [Chats.Reply(Chats.Run(start, ops[..k]), ops[k])], k + 1)
  {}

  lemma ClockNext(ops: seq<Chats.Op>, k: nat, now: Time)
    requires k < |ops|
    ensures ClockAfter(ops[..k + 1], now) == Ends(ops[k], ClockAfter(ops[..k], now))
  {
    assert ops[..k + 1][..k] == ops[..k];
  }

  // The invalidations made during a run are its changes of membership.
  ghost predicate DropsAre(before: map<RoomId, nat>, after: map<RoomId, nat>, c: Chats.Chat, ops: seq<Chats.Op>) {
    forall g: RoomId :: Count(after, g) == Count(before, g) + Changes(c, ops, g)
  }

  lemma DropsNext(before: map<RoomId, nat>, mid: map<RoomId, nat>, after: map<RoomId, nat>,
                  c: Chats.Chat, ops: seq<Chats.Op>, k: nat)
    requires k < |ops| && DropsAre(before, mid, c, ops[..k])
    requires forall g: RoomId ::
               Count(after, g)
               == Count(mid, g) + if ChangedGroup(Chats.Run(c, ops[..k]), ops[k]) == Some(g) then 1 else 0
    ensures DropsAre(before, after, c, ops[..k + 1])
  {
    assert ops[..k + 1][..k] == ops[..k];
    forall g: RoomId ensures Count(after, g) == Count(before, g) + Changes(c, ops[..k + 1], g) {
      assert Count(mid, g) == Count(before, g) + Changes(c, ops[..k], g);
    }
  }
}
