/** Unread messages are conserved: what was raised is either outstanding or was cleared. */
module Conservation {
  import opened Domain
  import opened Tables
  import opened Chats
  import opened History

  type Contacts = map<(Uid, RoomId), Contact>

  ghost function SumUnread(cs: Contacts, r: RoomId, us: set<Uid>): nat {
    if us == {} then 0
    else
      var u :| u in us;
      Unread(cs, u, r) + SumUnread(cs, r, us - {u})
  }

  function ContactUids(cs: Contacts, r: RoomId): set<Uid> {
    set k | k in cs && k.1 == r :: k.0
  }

  // The outstanding unread messages of a room, over everyone with a counter for it.
  ghost function TotalUnread(cs: Contacts, r: RoomId): nat {
    SumUnread(cs, r, ContactUids(cs, r))
  }

  lemma {:induction false} SumPick(cs: Contacts, r: RoomId, us: set<Uid>, x: Uid)
    requires x in us
    ensures SumUnread(cs, r, us) == Unread(cs, x, r) + SumUnread(cs, r, us - {x})
  {
    var u :| u in us && SumUnread(cs, r, us) == Unread(cs, u, r) + SumUnread(cs, r, us - {u});
    if u != x {
      SumPick(cs, r, us - {u}, x);
      SumPick(cs, r, us - {x}, u);
      assert us - {u} - {x} == us - {x} - {u};
    }
  }

  // Uids without a counter add nothing.
  lemma {:induction false} SumSuperset(cs: Contacts, r: RoomId, us: set<Uid>)
    requires ContactUids(cs, r) <= us
    ensures SumUnread(cs, r, us) == TotalUnread(cs, r)
    decreases us
  {
    if extra :| extra in us && extra !in ContactUids(cs, r) {
      SumPick(cs, r, us, extra);
      SumSuperset(cs, r, us - {extra});
      assert (extra, r) !in cs;
    } else {
      assert us == ContactUids(cs, r);
    }
  }

  // The one uid whose counter an event clears in r.
  ghost function Clearer(e: Event, r: RoomId): Option<Uid> {
    if e.ReadBy? && e.room == r then Some(e.uid)
    else if e.Posted? && !e.hot && e.msg.room == r then Some(e.msg.from)
    else None
  }

  ghost function Notified(e: Event, r: RoomId): set<Uid> {
    if e.Posted? && !e.hot && e.msg.room == r then e.to - {e.msg.from} else {}
  }

  ghost function ClearedBy(c: Chat, e: Event, r: RoomId): nat {
    Cleared(c.t.contacts, Clearer(e, r), r)
  }

  ghost function Cleared(cs: Contacts, clearer: Option<Uid>, r: RoomId): nat {
    match clearer
    case None => 0
    case Some(u) => Unread(cs, u, r)
  }

  // cs' is cs with one counter emptied and those of a set raised by one.
  ghost predicate Moves(cs: Contacts, cs': Contacts, clearer: Option<Uid>, raised: set<Uid>, r: RoomId) {
    forall u: Uid ::
      Unread(cs', u, r) == if clearer == Some(u) then 0 else Unread(cs, u, r) + if u in raised then 1 else 0
  }

  lemma {:induction false} SumMoves(cs: Contacts, cs': Contacts, clearer: Option<Uid>, raised: set<Uid>, r: RoomId,
                                    us: set<Uid>)
    requires Moves(cs, cs', clearer, raised, r) && (clearer.Some? ==> clearer.value !in raised)
    ensures SumUnread(cs', r, us) + (if clearer.Some? && clearer.value in us then Cleared(cs, clearer, r) else 0)
         == SumUnread(cs, r, us) + |us * raised|
  {
    if us == {} {
      assert us * raised == {};
    } else {
      var u :| u in us;
      SumMoves(cs, cs', clearer, raised, r, us - {u});
      SumPick(cs', r, us, u);
      SumPick(cs, r, us, u);
      OneMoreRaised(us, raised, u);
    }
  }

  lemma OneMoreRaised(us: set<Uid>, raised: set<Uid>, u: Uid)
    requires u in us
    ensures |us * raised| == |(us - {u}) * raised| + if u in raised then 1 else 0
  {
    assert us * raised == (us - {u}) * raised + if u in raised then {u} else {};
  }

  lemma TotalMoves(cs: Contacts, cs': Contacts, clearer: Option<Uid>, raised: set<Uid>, r: RoomId)
    requires Moves(cs, cs', clearer, raised, r) && (clearer.Some? ==> clearer.value !in raised)
    ensures TotalUnread(cs', r) + Cleared(cs, clearer, r) == TotalUnread(cs, r) + |raised|
  {
    var us := ContactUids(cs, r) + ContactUids(cs', r) + raised + (if clearer.Some? then {clearer.value} else {});
    SumMoves(cs, cs', clearer, raised, r, us);
    SumSuperset(cs, r, us);
    SumSuperset(cs', r, us);
    assert us * raised == raised;
  }

  // One request raises one counter per notified participant and empties at most one.
  lemma StepConserves(c: Chat, op: Op, r: RoomId)
    ensures TotalUnread(Step(c, op).t.contacts, r) + ClearedBy(c, EventOf(c, op), r)
         == TotalUnread(c.t.contacts, r) + |Notified(EventOf(c, op), r)|
  {
    var e := EventOf(c, op);
    var cs, cs' := c.t.contacts, Step(c, op).t.contacts;
    forall u: Uid
      ensures Unread(cs', u, r)
           == if Clearer(e, r) == Some(u) then 0 else Unread(cs, u, r) + if u in Notified(e, r) then 1 else 0
    {
      UnreadStep(c, op, u, r);
    }
    TotalMoves(cs, cs', Clearer(e, r), Notified(e, r), r);
  }

  // An accepted message in a room that is not hot: everyone in the room but the sender has
  // one more, and the sender none.
  lemma SendConserves(c: Chat, uid: Uid, req: SendRequest, at: SendTimes, r: RoomId)
    requires Reply(c, Send(uid, req, at)) == Ok && !c.t.rooms[req.room].hot
    ensures var c' := Step(c, Send(uid, req, at));
            TotalUnread(c'.t.contacts, r)
            == if r != req.room then TotalUnread(c.t.contacts, r)
               else TotalUnread(c.t.contacts, r) + |Participants(c.t, r)| - 1 - Unread(c.t.contacts, uid, r)
  {
    StepConserves(c, Send(uid, req, at), r);
    ParticipantsAreParticipants(c.t, req.room, uid);
  }

  ghost function RaisedOver(c: Chat, ops: seq<Op>, r: RoomId): nat {
    if ops == [] then 0
    else
      var n := |ops| - 1;
      RaisedOver(c, ops[..n], r) + |Notified(EventOf(Run(c, ops[..n]), ops[n]), r)|
  }

  ghost function ClearedOver(c: Chat, ops: seq<Op>, r: RoomId): nat {
    if ops == [] then 0
    else
      var n := |ops| - 1;
      ClearedOver(c, ops[..n], r) + ClearedBy(Run(c, ops[..n]), EventOf(Run(c, ops[..n]), ops[n]), r)
  }

  // Over any run: outstanding at the end + cleared = outstanding at the start + raised.
  lemma {:induction false} RunConserves(c: Chat, ops: seq<Op>, r: RoomId)
    ensures TotalUnread(Run(c, ops).t.contacts, r) + ClearedOver(c, ops, r)
         == TotalUnread(c.t.contacts, r) + RaisedOver(c, ops, r)
  {
    if ops != [] {
      var n := |ops| - 1;
      RunConserves(c, ops[..n], r);
      StepConserves(Run(c, ops[..n]), ops[n], r);
    }
  }
}
