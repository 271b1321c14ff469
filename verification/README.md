# chatroom-server: a verified model of rooms, messages, the member cache and delivery

This project models the stateful core of the chat server: the room and membership
tables, the message log with its unread counters, the read-through cache of group members,
the WebSocket hub, and the HTTP handlers that tie them together. It has two layers over the
same tables.

**Requests one at a time.** Every store, the cache, the hub and every handler is a class
whose methods update its fields in the order the Go code does (`Tables.dfy`, `RoomStore.dfy`,
`MessageLog.dfy`, `MemberCache.dfy`, `Hub.dfy`, `MessageHandler.dfy`, `RoomHandler.dfy`,
`CallHandler.dfy`, `Server.dfy`). Times are parameters: one `send` reads the cache at three
separate instants, so an entry may expire between any two of its lookups. The reference is
`Chat.dfy`, a description of the service without cache, lists or loops: `Chats.Reply` says
how a request is answered and `Chats.Step` what it does. `Servers.Server.Serve` proves that
any run of requests, cached or not, is answered exactly as that description says.
`Requests.dfy` spells the description out: for each kind of request when it is refused and
how, and what every column, counter and wire holds afterwards, without the functions the
description is composed of. What the service promises over whole runs is proved of
`Chats.Run`: unread counts (`History.dfy`, `Conservation.dfy`), deliveries, history paging,
ownership, recalls, 1:1 rooms, the room list (`Sidebar.dfy`), and which request every
message, role and room row comes from (`Provenance.dfy`).

**Requests that overlap.** In `Interleaved.dfy` each request is a process with a program
counter, each store or cache call is one atomic step, steps of different requests interleave
in any order, and every call, `Set` and `Invalidate` included, may fail. The cache's time to
live and the request deadline are parameters. A request that nothing overlaps is followed
through every combination of failing calls (`InterleavedSolo.dfy`): as long as only cache
calls fail it does exactly what the first layer says, and otherwise an exactly known part of
it (`InterleavedAlone.dfy`). Proved over every behaviour: how old a membership a request can act
on (`InterleavedStaleness.dfy`), what ends ownership and what becomes of 1:1 pairs
(`InterleavedOwners.dfy`), when a room names its newest message (`InterleavedLastMessage.dfy`),
when a cached list goes wrong (`InterleavedMemberCache.dfy`), that the message log and its
paging hold up (`InterleavedLog.dfy`), that no message raises a counter twice
(`InterleavedCounters.dfy`), what permitted each membership change and each recall
(`InterleavedPermission.dfy`), and where rooms, messages and admins come from
(`InterleavedProvenance.dfy`).

Five things the code's comments or its one-at-a-time behaviour suggest are false when
requests overlap or an owner acts on itself. The first four have their exact conditions; the
first three and the last a run in which they fail with every call succeeding:

- *Once a change of membership has invalidated the cached list, the cache is not wrong about
  that member* (`internal/room/handler.go:13-17`): from that moment on it can go wrong if and
  only if some request that read the list before the change has yet to store it.
  `EntryGoesWrongIff`, `InvalidationCanComeTooEarly`.
- *A pair has one 1:1 room*: pairs are unique as long as no request inserts one that was
  stored after it looked. `PairsUniqueIff`, `OverlappingCallsMakeTwoRooms`.
- *A room names its newest message as its last*: it does if and only if the last store or
  touch of the room was a touch with no later message stored; so it fails when a send is
  overtaken, and when a touch is lost. `NamesNewestIff`, `OverlappingSendsNameTheOlder`.
- *Every group has an owner*: the owner may turn `setAdmin` against itself, and nobody can
  become owner afterwards. An owner stays owner exactly as long as it has not done so.
  `OwnershipEndsIff`, `OwnersOnlyAtCreation`, `OwnedIff`.
- *A removal is allowed by the roles of one instant*: the actor's role and the target's are
  read one after the other, and each allows the removal when it is read.
  `RowsChangeByPermission`, `RemovalAllowedAtNoInstant`.

The SQL statements and keys are modelled, not the test fakes: adding an existing member
fails and changes nothing, and setting the role of a non-member does nothing. A request's
calls take effect within its five seconds (`REQUEST_DEADLINE`, `Config.deadline`).

Conventions: ids are natural numbers, 0 meaning none; time is in whole seconds; a handler's
HTTP status is a `Status`; `wire` in the hub records every attempted write per connection.
`SkipIds` lets ids be lost to rolled-back transactions at any point.

## Model

| member | source | states |
|---|---|---|
| Servers.Server.Serve | cmd/server/main.go:49-59 | for any sequence of requests, with the cache attached or left out and whatever expires in between, every reply and the final state are those of the cache-free description; the cache stays coherent; per group, membership queries made for sends and recalls are at most 1 + invalidations + expiries, those expiries are at most one per 300 s of running, and the invalidations are the accepted additions, removals and exits |
| Servers.Server.Handle | cmd/server/main.go:70-74 | one request keeps the whole-store invariant and cache coherence, and refines one step of the description |
| Servers.Server.HandleTables | internal/room/handler.go:36-46 | room requests refine the description and leave log and hub alone |
| Servers.Server.HandleMessage | internal/message/handler.go:44-46 | sends and recalls refine the description, each lookup at its own instant |
| Servers.Server.HandleHub | internal/ws/handler.go:38-39 | calls, openings and closings refine the description and leave the tables and the log alone |
| MessageHandlers.MessageHandler.Send | internal/message/handler.go:59-121 | reply and new state are the description's, and the stored row carries room, sender, content, kind, reply target and extra data as they were sent; a send costs at most one membership query in spite of three lookups |
| MessageHandlers.MessageHandler.Admit | internal/message/handler.go:63-97 | the checks answer in the order bad request, unknown room, not a participant, and the last uses the uncached rule |
| MessageHandlers.MessageHandler.Post | internal/message/handler.go:99-118 | an admitted send appends one message, with every field as it was sent, writes one payload to each connection of each participant (everyone for a hot room), names it as the room's last and raises the others' counters by one; no query while the entry lives |
| MessageHandlers.MessageHandler.CanPost | internal/message/handler.go:127-143 | the cached fast path gives the same answer as the simple rule over the tables, for every room and uid |
| MessageHandlers.MessageHandler.GroupMemberUIDs | internal/message/handler.go:152-170 | from cache or table, the list names each current member once and nobody else; a live entry costs no query, anything else one, and leaves an entry for a full time to live |
| MessageHandlers.MessageHandler.ResolveRecipients | internal/message/handler.go:192-205 | a duplicate-free list of exactly the room's participants |
| MessageHandlers.MessageHandler.Broadcast | internal/message/handler.go:172-186 | each connection reached gets the payload exactly once, no other connection gets anything |
| MessageHandlers.MessageHandler.TrackActivity | internal/message/handler.go:212-229 | touches the room; unless it is hot, one more unread for every participant but the sender, and none for the sender |
| MessageHandlers.MessageHandler.CountUnread | internal/message/handler.go:221-228 | counters of a duplicate-free recipient list rise as a set, the sender's becomes zero |
| MessageHandlers.Others | internal/message/handler.go:221-226 | the loop keeps the recipients minus the sender, without repeats |
| MessageHandlers.MessageHandler.Recall | internal/message/handler.go:231-269 | refines the description: unknown message, not entitled, or marked deleted and pushed to the room |
| MessageHandlers.MessageHandler.Retract | internal/message/handler.go:258-266 | the mark and the push, with no counter, last message or activity changed |
| MessageHandlers.MessageHandler.Page | internal/message/handler.go:298-319 | rows of the room below the cursor as they are stored, newest first, as many as asked for if that is 1 to 100 and otherwise 20, and none missing that is newer than one of them or while there is room |
| RoomHandlers.RoomHandler.InvalidateCache | internal/room/handler.go:29-34 | restores coherence after one group's membership has changed, by one invalidation of that group |
| RoomHandlers.RoomHandler.MarkRead | internal/room/handler.go:52-68 | the caller's counter for the room becomes zero, member or not, and no other changes |
| RoomHandlers.RoomHandler.CreateFriendRoom | internal/room/handler.go:88-110 | refuses 0 and the caller itself; otherwise replies with the one room of the unordered pair and keeps pairs unique; a new one is not hot, active now and names no message |
| RoomHandlers.RoomHandler.CreateGroup | internal/room/handler.go:117-135 | a fresh room that is not hot, is active now, names no message and has the asked name and avatar; its only member is its creator, as owner; the cache stays coherent although nothing is invalidated |
| RoomHandlers.RoomHandler.AddMember | internal/room/handler.go:141-169 | only a member can add, and who is added gets one new row as an ordinary member; re-adding a member is an error that changes nothing; coherence is kept |
| RoomHandlers.RoomHandler.RemoveMember | internal/room/handler.go:171-208 | replies in the code's order of checks; deletes the target's row only, keeps coherence |
| RoomHandlers.RoomHandler.ExitGroup | internal/room/handler.go:210-237 | anyone but the owner can leave; coherence is kept |
| RoomHandlers.RoomHandler.SetAdmin | internal/room/handler.go:243-280 | only an owner changes roles; the cache stays coherent without invalidation because it holds no roles |
| CallHandlers.CallHandler.OtherParticipants | internal/call/handler.go:128-151 | duplicate-free; for a participant of a room that is not hot, exactly the uids whose counters a message from the caller would raise |
| CallHandlers.CallHandler.Invite | internal/call/handler.go:96-126 | checks in the code's order; rings each connection of each callee once, an unknown mode as audio |
| Domain.CanRemoveMember | internal/room/role.go:27-36 | a member may be removed exactly by those strictly above it in rank |
| Tables.RecipientsAreParticipants | internal/room/recipients.go:6-20 | given the members once each, the list names exactly the participants of the room, once each, and in a room that is not hot exactly those the simple rule admits |
| RoomStores.RoomStore.CreateGroupRoom | internal/room/store.go:59-90 | a room that is not hot, its detail row with the asked name and avatar, and the owner's row appear together under a new id |
| RoomStores.RoomStore.AddMember | internal/room/store.go:92-95 | fails exactly when the unique key (group, uid) is taken, and then changes nothing; otherwise that key alone gets a new row with the given role |
| RoomStores.RoomStore.RemoveMember | internal/room/store.go:97-100 | that uid leaves that group, and no other group's membership changes |
| RoomStores.RoomStore.SetRole | internal/room/store.go:102-105 | a member has the role, a non-member's call changes nothing, and nobody joins or leaves any group |
| RoomStores.RoomStore.ListMembers | internal/room/store.go:107-111 | every member once, by role and then by row id |
| RoomStores.RoomStore.GetOrCreateFriendRoom | internal/room/store.go:209-249 | fails only for a pair of equals; an existing room is returned with nothing changed, in either order of the two; the room returned belongs to the pair as (smaller, larger) |
| RoomStores.RoomStore.TouchRoom | internal/room/store.go:179-182 | the room names the message and the time; other rooms, everybody's rooms and all counters stay |
| RoomStores.RoomStore.BumpUnread | internal/room/store.go:184-199 | building the rows and running the upsert equals raising the counters row by row |
| RoomStores.RoomStore.ResetUnread | internal/room/store.go:201-207 | that one counter reads zero afterwards, every other reads as before; the activity of an existing row stays |
| Tables.BumpCountsRepeats | internal/room/store.go:190-197 | the multi-row upsert raises a counter as often as the list repeats its uid, and no counter of another room |
| Tables.BumpRowsIsBumpSet | internal/message/handler.go:221-227 | over a duplicate-free list the upsert is one more for each uid of a set |
| Tables.ParticipantsAreParticipants | internal/room/role.go:9-22 | outside hot rooms the simple rule and the recipient set agree |
| Tables.ListingIsMembership | internal/room/store.go:107-111 | a listing names the members of the group and nobody else, once each |
| Tables.ListingIsStored | internal/room/store.go:107-111 | its rows are the stored ones: the owner, then admins, then the others, each by row id |
| Tables.InsertGroupRoomOk | internal/room/store.go:66-84 | keeps the table invariant and unique pairs |
| Tables.InsertGroupRoomMembers | internal/room/store.go:82-84 | the new group has its creator as only member, other groups are as before |
| Tables.InsertFriendRoomOk | internal/room/store.go:232-243 | keeps the table invariant, and unique pairs when the pair was not stored |
| Tables.InsertMemberOk | internal/room/store.go:92-95 | keeps the table invariant and adds the uid to that group only |
| Tables.DeleteMemberOk | internal/room/store.go:97-100 | keeps the table invariant and takes the uid from that group only |
| Tables.UpdateRoleOk | internal/room/store.go:102-105 | roles other than owner keep the invariant and nobody's membership changes |
| MessageLog.MessageStore.Insert | internal/message/store.go:25-33 | the id lies above all earlier ones, the message heads its room, and nothing stored changes |
| MessageLog.MessageStore.SetDeleted | internal/message/store.go:46-49 | the log only grows, that message is deleted, others are as before, and every query selects the same rows |
| MessageLog.MessageStore.ListByRoomCursor | internal/message/store.go:60-71 | the first rows, up to the limit, of the one descending listing of the room below the cursor |
| MessageLog.StatementsGrow | internal/message/store.go:25-49 | ids, senders, rooms and contents never change, a deleted message stays deleted, new ids lie above all old ones |
| MessageLog.NewestAfter | internal/message/handler.go:104-118 | a new message heads its room and no other; a recall moves no head |
| MessageLog.PagesFollowListing | internal/message/store.go:58-71 | whatever is sent or recalled between the pages, every page continues the listing the room had at the first page |
| MessageLog.CursorsDecrease | internal/message/store.go:60-71 | each cursor is strictly below the one before |
| MessageLog.WalkIsBounded | internal/message/store.go:58-71 | the full pages of a walk fit into what the room had at its start, so every walk comes to a short page |
| MessageLog.WalkIsComplete | internal/message/store.go:58-71 | a walk to its first short page returns exactly the ids present at its start, newest first, no gap and no repeat, in n / limit + 1 pages |
| MessageLog.OnePage | internal/message/store.go:60-71 | there is only one page of a room for a cursor and a size |
| MessageLog.PageIsHead | internal/message/store.go:60-71 | and that is the head of the room's descending listing below the cursor |
| MessageLog.ReadIsComplete | internal/message/handler.go:298-319 | a client that reads pages of one size to the first shorter one has then seen exactly the messages the room had at the first page, whatever was sent or recalled meanwhile |
| MemberCaches.MemberCache.Get | internal/cache/members.go:20-33 | a hit exactly while the entry has not expired, and then its list; an expired entry goes and is counted once |
| MemberCaches.MemberCache.Set | internal/cache/members.go:35-41 | the entry is replaced and lives for the given time |
| MemberCaches.MemberCache.Invalidate | internal/cache/members.go:43-45 | that entry goes and no other |
| MemberCaches.MemberCache.QueryBound | internal/message/handler.go:145-170 | queries for a group are at most 1 + its invalidations + its expiries, and its expiries at most one per 300 s |
| Hubs.Hub.Register | internal/ws/hub.go:20-27 | the registry as a relation gains that pair, and never an empty inner map |
| Hubs.Hub.Unregister | internal/ws/hub.go:29-36 | the relation loses that pair only; a uid without connections disappears |
| Hubs.Hub.SendToUsers | internal/ws/hub.go:38-46 | one write for each listed uid and each of its connections |
| Hubs.Hub.BroadcastAll | internal/ws/hub.go:48-56 | one write for each connection of anyone online |
| Hubs.FanOutIsOneStamp | internal/ws/hub.go:38-46 | over a duplicate-free list each reached connection is written exactly once |
| Chats.StepKeepsOk | internal/room/store.go:59-249 | every request keeps: a room has exactly the detail row of its kind, members belong to groups, at most one owner each, messages belong to rooms, pairs are ordered and unique, each room points at its newest message |
| Chats.RunKeepsOk | internal/room/store.go:59-249 | the same over every run |
| Requests.SendAnswers | internal/message/handler.go:63-97 | bad request exactly for room 0, an unknown kind, a text or emoji without words, an image or video without extra data; then not found; then forbidden exactly to those with no place in a room that is not hot |
| Requests.SendStores | internal/message/handler.go:99-108 | an accepted send adds one row, with room, sender, content, kind (1 for 0), reply target and extra data (none for none) as sent, not deleted, and touches no other |
| Requests.SendPushes | internal/message/handler.go:109-117 | what is pushed carries the same fields, and goes once to each connection of everyone who may post there and to no other connection |
| Requests.SendTouches | internal/room/store.go:176-182 | that room is as recent as the touch and names the message; every other room, and everybody's place, stays |
| Requests.SendCounts | internal/message/handler.go:217-228 | contact by contact, count and time: one more for the others of a room that is not hot, none for the sender, nothing for anyone else |
| Requests.RecallAnswers | internal/message/recall.go:14-22 | not found exactly for an unknown id; forbidden exactly unless an owner or admin of the room asks, or the sender within 120 s |
| Requests.RecallMarks | internal/message/handler.go:258-266 | the mark on that row and nothing else stored; the marked message goes to everyone who may post in its room now |
| Requests.InviteAnswers | internal/call/handler.go:99-118 | which refusal comes for which fault |
| Requests.InviteRings | internal/call/handler.go:103-151 | rings the other members of a group, hot or not, or the other of a pair, once on each connection, as video exactly when that was asked |
| Requests.MarkReadClears | internal/room/store.go:201-207 | that counter reads zero and keeps its time; nothing else changes |
| Requests.GroupIsMade | internal/room/store.go:59-90 | refused without a name; otherwise the next room id, not hot, active now, naming no message, with the asked name and avatar and the caller as owner |
| Requests.PairIsMade | internal/room/store.go:209-249 | nothing changes for a pair that has a room in either order; otherwise the next room id, not hot, active now, naming no message, smaller uid first |
| Requests.MemberIsAdded | internal/room/handler.go:147-169 | each refusal and its fault; otherwise one new row, of an ordinary member |
| Requests.MemberIsRemoved | internal/room/handler.go:187-208 | each refusal and its fault, an owner removing anyone but an owner and an admin only members; otherwise exactly that row goes |
| Requests.MemberLeaves | internal/room/handler.go:220-237 | refused to outsiders and owners; otherwise exactly that row goes |
| Requests.RoleIsGiven | internal/room/handler.go:260-280 | refused to all but the owner; a member keeps its row id and becomes admin or member, a non-member's case changes nothing |
| Provenance.LogIsHistory | internal/message/handler.go:99-108 | after any run the log is what it was and one message per accepted send, each with the fields that send asked for, no two under one id |
| Provenance.RoomsStay | internal/room/store.go:66 | over any run a room stays and keeps its kind and its flag; a hot room was there and hot at every earlier moment |
| Provenance.ActivityIsHistory | internal/room/store.go:176-182 | a room is there, and as recent as it is, because of the last send accepted in it, or else its creation, or else the start |
| Provenance.RoleIsHistory | internal/room/store.go:82-105 | after any run a uid's place in a group is what the last accepted request about it gave: owner by creating, member by joining, admin or member by the owner, none by removal or exit; or what it was |
| Provenance.AdminsWereMade | internal/room/handler.go:260-280 | exactly those are admins whom the group's owner made so, or who were at the start, and whose place nothing has changed since |
| History.UnreadIsHistory | internal/message/handler.go:207-229 | after any run a counter is the number of messages others posted to the room while the user was among its participants, since the user last read it or wrote in it |
| History.WireIsHistory | internal/ws/hub.go:38-56 | after any run what was written to a connection is exactly the messages, recalls and call invitations addressed to its holder while it was open, in order, each once |
| History.OnlineIsHistory | internal/ws/handler.go:38-39 | who is online follows from openings and closings alone |
| History.RunGrows | internal/message/store.go:25-49 | between any two moments of a run the log only grows: contents are immutable, Deleted is absorbing |
| History.WalkDuringRun | internal/message/handler.go:298-319 | the paging guarantee for a client whose pages, as the handler answers them, are read at any moments of a run |
| History.LastMessageHeadsHistory | internal/room/store.go:176-182 | after any run a room's last-message id is 0 when it is empty and otherwise that of the message a one-entry first page shows |
| History.FriendRoomsAreCanonical | internal/room/store.go:209-249 | at any two moments of a run, two 1:1 rooms are the same exactly when their unordered pairs are |
| History.OwnershipEndsIff | internal/room/handler.go:243-280 | an owner is never removed, and stops being owner exactly by a role request against itself |
| History.OwnersOnlyAtCreation | internal/room/handler.go:265-275 | over any run nobody becomes owner of a group that exists, so ownerless is for good |
| History.OwnedIff | internal/room/handler.go:243-280 | over any run an owner at the start is owner at the end exactly if no request of its own against itself came between |
| History.DeletedIffRecalled | internal/message/handler.go:258-263 | after any run a message is deleted exactly when it was at the start or some request recalled it |
| History.DeletedIffEntitledRequest | internal/message/recall.go:14-22 | exactly when somebody asked who was then an owner or admin of its room, or its sender within two minutes |
| History.RecallIsQuiet | internal/message/handler.go:207-211 | a recall moves no room, changes no counter, and no page gains or loses an entry |
| Conservation.StepConserves | internal/room/store.go:184-207 | a request raises one counter per notified participant and empties at most one |
| Conservation.SendConserves | internal/message/handler.go:221-228 | a message in a room that is not hot changes the room's total by participants - 1 - the sender's previous count, and no other room's |
| Conservation.RunConserves | internal/room/store.go:184-207 | over any run, outstanding at the end + cleared = outstanding at the start + raised |
| Sidebar.ListRoomsForUser | internal/room/store.go:149-174 | some order by non-increasing activity of the two halves of the union, with repetitions |
| Sidebar.SidebarMatchesRecipients | internal/room/store.go:149-174 | whichever order ties come in: one row per room, for exactly the rooms the user is a participant of (for those that are not hot, the rooms whose messages go to the user), each with the room's activity, by which rows do not increase, the right peer and unread count, and content and time of the newest message |
| InterleavedAlone.AloneIsSerial | internal/message/handler.go:152-170 | failures of the cache are invisible: whichever request it is, whatever sound state it meets and whichever of its cache calls fail, when its other calls succeed it ends, and wherever it ends the tables and the log are those of the one-at-a-time layer; the cache is coherent unless an invalidation was lost |
| InterleavedAlone.AloneUnderFaults | internal/message/handler.go:86-229 | whichever calls of a request left alone fail, tables, log and cache end exactly as `InterleavedSolo.SendAlone`, `RecallAlone` and `RoomRequestAlone` say, and every combination of failures can come about |
| InterleavedAlone.RunsHaveFaults | internal/message/handler.go:86-229 | a request left alone makes at most fifteen calls and none twice, so that the set of those that fail determines its run |
| InterleavedAlone.RunsGoOn | internal/message/handler.go:86-229 | and until it has ended it can always make its next call |
| InterleavedSolo.SendAlone | internal/message/handler.go:86-229 | a send stores its message exactly if the room, the sender's place (in a live entry or in the table) and the insert work out; then it touches the room even if it cannot find whom to push to; it counts unless it cannot find for whom, raising and clearing each as far as that call works |
| InterleavedSolo.RecallAlone | internal/message/handler.go:231-269 | a recall marks exactly if message and mark work out, acting as an ordinary member when the role cannot be read, whatever becomes of the push |
| InterleavedSolo.RoomRequestAlone | internal/room/handler.go:52-280 | a room request does all that the one-at-a-time layer says if its table calls work, and otherwise nothing; only a lost invalidation leaves the cache behind |
| InterleavedSolo.Posts | internal/message/handler.go:89-108 | the first half of a send by someone who may post stores exactly one message, whatever is cached and whether or not the cache can be read or filled |
| InterleavedSolo.Completes | internal/message/handler.go:117-118 | the second half touches and counts, as far as its calls work, whatever was stored in between |
| InterleavedAlone.OneEnd | internal/message/handler.go:86-118 | a request left alone has one end for each set of failing calls |
| InterleavedSolo.LooksUp | internal/message/handler.go:152-170 | a lookup left alone hands over each participant exactly once, whether it hits, misses or cannot read the cache, and whether or not it can fill it; it fails exactly when the table cannot be read either |
| InterleavedSolo.Tallies | internal/message/handler.go:217-228 | the tally of a send left alone ends with one more unread for every participant but the sender, if they can be found and raised, and none for the sender, if that can be cleared |
| InterleavedSafety.StepSafe | internal/room/handler.go:158-280 | in every interleaving every step keeps the table and log invariants and what each request relies on between its check and its write |
| InterleavedSafety.BehaviourSafe | internal/room/handler.go:158-280 | the same for every reachable state |
| InterleavedLog.BehaviourGrows | internal/message/store.go:25-49 | between any two states of any behaviour contents are immutable, Deleted is absorbing, and new ids lie above old ones |
| InterleavedLog.WalkDuringBehaviour | internal/message/handler.go:298-319 | the paging guarantee for a client whose pages, as the handler answers them, are read at any moments while requests overlap |
| InterleavedStaleness.BoundedStaleness | internal/message/handler.go:152-170 | even if every fill and invalidation fails, a resolved list names exactly the participants of some instant at most one time to live and one deadline earlier |
| InterleavedStaleness.PostersWereParticipants | internal/message/handler.go:86-104 | every stored message comes from a uid allowed to post in its room at most one time to live and two deadlines before |
| InterleavedStaleness.CountersGrowForParticipants | internal/message/handler.go:217-227 | a counter rises by exactly one at a time, and only for a uid that was in the room within the same bound |
| InterleavedCounters.CountersCovered | internal/message/handler.go:212-229 | over any behaviour a counter, with the sends that may still raise it, is at most what it was at the start plus the messages others have stored in the room since |
| InterleavedCounters.CountersBounded | internal/room/store.go:184-199 | so no message raises a counter twice, whatever overlaps and fails |
| InterleavedPermission.RowsChangeByPermission | internal/room/handler.go:158-280 | a membership row changes only at the request of somebody to whom the roles read at most one deadline before permitted it: a member adds, and adds an ordinary member; an owner gives a member the role asked for, admin or member; one who is no owner leaves; a removal goes down the ranks with the actor's role read before the target's |
| InterleavedPermission.RecallsWerePermitted | internal/message/handler.go:242-258 | a message is recalled only at the request of somebody entitled to at most one deadline before |
| InterleavedProvenance.RoomsAreMade | internal/room/store.go:59-90 | in every interleaving a room appears by a request for it, not hot, active then and naming no message: a group with the asked name and avatar and the caller as owner, a pair with the smaller uid first |
| InterleavedProvenance.RoomsStay | internal/room/store.go:66 | over any behaviour a room keeps its kind and its flag, and a hot room was there and hot from the start |
| InterleavedProvenance.MessagesWereSent | internal/message/handler.go:99-108 | every message that appears is what a request in flight asked to be sent, by its uid, in its room |
| InterleavedProvenance.AdminsWereMade | internal/room/handler.go:260-280 | over any behaviour an admin has been one from the start, or since a request of a uid that owned the group within one deadline before made the member so |
| InterleavedRemoval.RemovalAllowedAtNoInstant | internal/room/handler.go:187-202 | any two admins of an owned group have a run without a failing call, of one removal and two role requests of the owner, in which the removal takes effect though at no instant of the run its actor may remove its target |
| InterleavedOwners.AtMostOneOwner | internal/room/store.go:82-84 | in every reachable state a group has at most one owner |
| InterleavedOwners.GroupsBeginOwned | internal/room/store.go:59-90 | a group first appears with its creator as owner and only member |
| InterleavedOwners.OwnersOnlyEnd | internal/room/handler.go:265-275 | in every interleaving an owner of an existing group was its owner at every earlier moment |
| InterleavedOwners.OwnershipEndsBySelf | internal/room/handler.go:187-280 | no removal or exit deletes an owner's row despite the gap between check and delete; ownership ends exactly when the owner's own role request against itself takes effect |
| InterleavedOwners.OwnedIff | internal/room/handler.go:243-280 | over any behaviour an owner is owner exactly as long as no such request of its own has taken effect |
| InterleavedOwners.PairsStayUniqueIff | internal/room/store.go:217-241 | pairs stay unique across a step exactly when it is not the insert of a request whose pair has meanwhile been stored |
| InterleavedOwners.PairsUniqueIff | internal/room/store.go:209-249 | over any behaviour pairs are unique exactly as long as no such insert has been made |
| InterleavedOwners.OverlappingCallsMakeTwoRooms | internal/room/store.go:217-241 | for any two people without a room there is a behaviour in which each asks for the other, every call succeeds, both requests end, and the two have two rooms |
| InterleavedLastMessage.LastMessagesAreReal | internal/room/store.go:179-182 | in every interleaving the last-message id is 0 or that of a message of that room |
| InterleavedLastMessage.NamesNewestAfter | internal/room/store.go:176-182 | after a step a room names its newest message: never if it stored one for the room, exactly when in time if it touched the room, otherwise as before |
| InterleavedLastMessage.NewRoomsNameNewest | internal/room/store.go:66-84 | a room that appears names its newest message, which is none |
| InterleavedLastMessage.NamesNewestIff | internal/message/handler.go:104-118 | over any behaviour a room names its newest message exactly when the last store or touch of it was a touch before any later message was stored, or none happened since it did |
| InterleavedLastMessage.OverlappingSendsNameTheOlder | internal/message/handler.go:104-118 | in any room, for any two uids who may post there, there is a behaviour in which both send, every call succeeds, both messages are stored, and the room names the older one while the newer is its newest |
| InterleavedMemberCache.EntryGoesWrongIff | internal/room/handler.go:163-167 | from a moment at which a group's entry is gone or right about a uid, it can become wrong about it, the uid neither joining nor leaving, exactly when some request in time has yet to store a list that is |
| InterleavedMemberCache.InvalidationCanComeTooEarly | internal/room/handler.go:13-17 | in any group that is not hot, whatever is cached and whoever may remove a member, there is a behaviour without a failing call in which, after the removal and its invalidation, the live entry names the removed uid again, and a message it then sends, still out, is stored |

## Left out

- HTTP routing, JSON decoding, status texts, authentication, tokens, password hashing, media, configuration and migrations: plumbing and library calls; handlers start from typed arguments and the caller's uid.
- Payload encoding: marshalling a payload is taken to succeed; payloads are values.
- Store errors in the one-at-a-time layer: a store call succeeds once its guards hold. The overlapping layer lets every call fail; what it leaves out is the reply a client then gets.
- Time inside one lookup: in the one-at-a-time layer the cache read, the table read and the fill of one lookup share one instant; in the overlapping layer they are separate steps.
- A cache that loses entries early or whose calls fail, in the one-at-a-time layer: entries go by expiry and invalidation only. In the overlapping layer every cache call may fail (`InterleavedAlone.AloneIsSerial`).
- A call that takes effect although its caller gets an error: in the overlapping layer a failed call has no effect.
- The hub in the overlapping layer: pushes change nothing there. The hub's lock is not modelled, each hub method is atomic, and the outcome of a write is ignored as in the code.
- Message kinds other than text, replies and extra data in the overlapping layer: they affect no step; and its clock does not move within a step.
- Serialisability: the two layers are compared for a request that nothing overlaps; no general statement relates overlapping runs to runs of the other layer, and for pairs, last messages and cached lists there is none.
- Column widths: text lengths, negative ids and the range of `unread_count` are unbounded here; times have whole seconds, as the DATETIME columns do.
- Transactions are single steps; SQL locking and isolation below that are not modelled.
- How a room comes to be hot: no code sets the flag (`Provenance.RoomsStay`); hot rooms are those of the initial state.
- Whether a uid belongs to a registered user: the code does not check it and nothing is claimed.
- Message marks, user registration and profiles, group listings over HTTP, `GetGroupByRoomID`, `CanDismissGroup`, call tokens: simple reads and writes, or reached from no handler.
- Servers.Server.Serve: the query bound is for a cache filled by this server only.
- InterleavedLastMessage.LastMessagesAreReal: says less than the one-at-a-time result, which is false for overlapping requests; NamesNewestIff says when it holds.
