/** Vocabulary shared by every module: identifiers, the rows of the tables, and the
    pure decisions of internal/room/role.go, internal/room/recipients.go and
    internal/message/recall.go. Time is counted in whole seconds. */
module Domain {

  type Uid = nat
  type RoomId = nat
  type MsgId = nat
  type Conn = nat
  type Time = nat

  const MEMBER_CACHE_TTL: nat := 300
  const REQUEST_DEADLINE: nat := 5
  const RECALL_WINDOW: int := 120

  datatype Option<+T> = None | Some(value: T) {
    function GetOr(default: T): T {
      match this
      case None => default
      case Some(v) => v
    }
  }

  datatype RoomKind = FriendRoom | GroupRoom

  datatype Role = Owner | Admin | Member {
    // The number stored in group_member.role, by which listings are ordered.
    function Rank(): nat {
      match this
      case Owner => 1
      case Admin => 2
      case Member => 3
    }
  }

  datatype Room = Room(kind: RoomKind, hot: bool, activeTime: Time, lastMsgId: MsgId)
  datatype Group = Group(name: string, avatar: string)
  datatype Friend = Friend(uid1: Uid, uid2: Uid)
  datatype MemberRow = MemberRow(id: nat, role: Role)
  datatype Contact = Contact(activeTime: Time, unread: nat)

  // The message kinds a client may send, plus the two the handlers never produce.
  const TYPE_TEXT := 1
  const TYPE_EMOJI := 2
  const TYPE_IMAGE := 5
  const TYPE_VIDEO := 6

  datatype Message = Message(
    id: MsgId, room: RoomId, from: Uid, content: string, kind: int,
    replyTo: MsgId, deleted: bool, extra: Option<string>, created: Time)

  datatype Payload =
    | ChatMessage(msg: Message)
    | CallInvite(room: RoomId, from: Uid, mode: string)

  datatype Status = Ok | BadRequest | Forbidden | NotFound | ServerError

  function ToSet<T>(s: seq<T>): set<T> {
    set x | x in s
  }

  ghost predicate NoDup<T>(s: seq<T>) {
    forall i, j :: 0 <= i < j < |s| ==> s[i] != s[j]
  }

  lemma Appended(s: seq<Uid>, x: Uid)
    ensures ToSet(s + [x]) == ToSet(s) + {x}
    ensures NoDup(s) && x !in ToSet(s) ==> NoDup(s + [x])
  {}

  // Removal goes strictly down the ranks.
  predicate CanRemoveMember(actor: Role, target: Role): (ok: bool)
    ensures ok <==> actor.Rank() < target.Rank()
  {
    match actor
    case Owner => target != Owner
    case Admin => target == Member
    case Member => false
  }

  predicate CanSetAdmin(actor: Role) {
    actor == Owner
  }

  predicate CanRecall(from: Uid, actor: Uid, role: Role, created: Time, now: Time) {
    if role == Owner || role == Admin then true
    else if from != actor then false
    else now - created <= RECALL_WINDOW
  }

  // Recipient list by room kind; hot rooms are special-cased by the callers.
  function Recipients(kind: RoomKind, groupUids: seq<Uid>, friend: Option<Friend>): (out: seq<Uid>)
    ensures kind.GroupRoom? ==> out == groupUids
    ensures kind.FriendRoom? && friend.Some? ==> ToSet(out) == {friend.value.uid1, friend.value.uid2}
    ensures kind.FriendRoom? && friend.None? ==> out == []
  {
    match kind
    case GroupRoom => groupUids
    case FriendRoom =>
      match friend
      case None => []
      case Some(f) => [f.uid1, f.uid2]
  }
}
