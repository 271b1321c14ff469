/** The connection registry of internal/ws/hub.go: a map of uid to its connections.
    wire records every attempted write, per connection, in order. */
module Hubs {
  import opened Domain

  type Conns = map<Uid, set<Conn>>
  type Wire = map<Conn, seq<Payload>>

  function ConnsOf(conns: Conns, u: Uid): set<Conn> {
    if u in conns then conns[u] else {}
  }

  // The registry read as a relation.
  function Pairs(conns: Conns): set<(Uid, Conn)> {
    set u, c | u in conns && c in conns[u] :: (u, c)
  }

  // Those a payload reaches: everyone for a hot room, otherwise the connections of `to`.
  function Reached(online: set<(Uid, Conn)>, hot: bool, to: set<Uid>): set<Conn> {
    set p | p in online && (hot || p.0 in to) :: p.1
  }

  // A connection belongs to the one uid whose request opened it.
  ghost predicate OneUidEach(online: set<(Uid, Conn)>) {
    forall p, q :: p in online && q in online && p.1 == q.1 ==> p.0 == q.0
  }

  // One more payload on each connection of a set.
  function Stamp(wire: Wire, cs: set<Conn>, payload: Payload): Wire {
    map c | c in wire :: if c in wire && c in cs then wire[c] + [payload] else wire[c]
  }

  // What a fan-out over a uid list writes: one payload per listed uid and connection.
  function FanOut(wire: Wire, conns: Conns, uids: seq<Uid>, payload: Payload): Wire {
    if uids == [] then wire
    else Stamp(FanOut(wire, conns, uids[..|uids| - 1], payload), ConnsOf(conns, uids[|uids| - 1]), payload)
  }

  // Over a duplicate-free list every reached connection is written exactly once.
  lemma {:induction false} FanOutIsOneStamp(wire: Wire, conns: Conns, uids: seq<Uid>, payload: Payload)
    requires NoDup(uids) && OneUidEach(Pairs(conns))
    ensures FanOut(wire, conns, uids, payload) == Stamp(wire, Reached(Pairs(conns), false, ToSet(uids)), payload)
  {
    if uids != [] {
      var n := |uids| - 1;
      var u, rest := uids[n], uids[..n];
      FanOutIsOneStamp(wire, conns, rest, payload);
      assert uids == rest + [u];
      assert ToSet(uids) == ToSet(rest) + {u};
      StampNext(wire, conns, ToSet(rest), u, payload);
    } else {
      assert Reached(Pairs(conns), false, ToSet(uids)) == {};
    }
  }

  lemma FanOutNext(wire: Wire, conns: Conns, uids: seq<Uid>, i: nat, payload: Payload)
    requires i < |uids|
    ensures FanOut(wire, conns, uids[..i + 1], payload)
         == Stamp(FanOut(wire, conns, uids[..i], payload), ConnsOf(conns, uids[i]), payload)
  {
    assert uids[..i + 1][..i] == uids[..i];
  }

  lemma ReachedSplits(conns: Conns, to: set<Uid>, u: Uid)
    requires u !in to && OneUidEach(Pairs(conns))
    ensures Reached(Pairs(conns), false, to + {u}) == Reached(Pairs(conns), false, to) + ConnsOf(conns, u)
    ensures Reached(Pairs(conns), false, to) !! ConnsOf(conns, u)
  {
    var online := Pairs(conns);
    forall c | c in ConnsOf(conns, u)
      ensures c in Reached(online, false, to + {u}) && c !in Reached(online, false, to)
    {
      assert (u, c) in online;
    }
    forall c | c in Reached(online, false, to + {u}) && c !in Reached(online, false, to)
      ensures c in ConnsOf(conns, u)
    {
      var p :| p in online && p.0 in to + {u} && p.1 == c;
      assert p.0 == u;
    }
    forall c | c in Reached(online, false, to) ensures c in Reached(online, false, to + {u}) {
      var p :| p in online && p.0 in to && p.1 == c;
      assert p.0 in to + {u};
    }
  }

  lemma StampTwice(wire: Wire, a: set<Conn>, b: set<Conn>, payload: Payload)
    requires a !! b
    ensures Stamp(Stamp(wire, a, payload), b, payload) == Stamp(wire, a + b, payload)
  {}

  lemma StampNext(wire: Wire, conns: Conns, done: set<Uid>, u: Uid, payload: Payload)
    requires u !in done && OneUidEach(Pairs(conns))
    ensures Stamp(Stamp(wire, Reached(Pairs(conns), false, done), payload), ConnsOf(conns, u), payload)
         == Stamp(wire, Reached(Pairs(conns), false, done + {u}), payload)
  {
    ReachedSplits(conns, done, u);
    StampTwice(wire, Reached(Pairs(conns), false, done), ConnsOf(conns, u), payload);
  }

  lemma WithoutPair(before: Conns, after: Conns, uid: Uid, c: Conn)
    requires forall u :: ConnsOf(after, u) == if u == uid then ConnsOf(before, u) - {c} else ConnsOf(before, u)
    ensures Pairs(after) == Pairs(before) - {(uid, c)}
  {
    forall u: Uid, d: Conn ensures (u, d) in Pairs(after) <==> (u, d) in Pairs(before) && (u, d) != (uid, c) {
      assert (u, d) in Pairs(after) <==> d in ConnsOf(after, u);
      assert (u, d) in Pairs(before) <==> d in ConnsOf(before, u);
    }
  }

  class Hub {
    var conns: Conns
    var wire: Wire

    // No empty inner map, and every registered connection has a wire.
    ghost predicate Valid()
      reads this
    {
      && (forall u :: u in conns ==> conns[u] != {})
      && (forall u, c :: u in conns && c in conns[u] ==> c in wire)
    }

    constructor ()
      ensures Valid() && conns == map[] && wire == map[]
    {
      conns, wire := map[], map[];
    }

    method Register(uid: Uid, c: Conn)
      requires Valid()
      modifies this
      ensures Valid()
      ensures Pairs(conns) == old(Pairs(conns)) + {(uid, c)}
      ensures wire == if c in old(wire) then old(wire) else old(wire)[c := []]
    {
      if uid !in conns {
        conns := conns[uid := {}];
      }
      conns := conns[uid := conns[uid] + {c}];
      if c !in wire {
        wire := wire[c := []];
      }
      assert forall p :: p in Pairs(conns) <==> p in old(Pairs(conns)) || p == (uid, c);
    }

    method Unregister(uid: Uid, c: Conn)
      requires Valid()
      modifies this`conns
      ensures Valid()
      ensures Pairs(conns) == old(Pairs(conns)) - {(uid, c)}
    {
      if uid in conns {
        conns := conns[uid := conns[uid] - {c}];
        if conns[uid] == {} {
          conns := conns - {uid};
        }
      }
      WithoutPair(old(conns), conns, uid, c);
    }

    method WriteEach(cs: set<Conn>, payload: Payload)
      requires forall c :: c in cs ==> c in wire
      modifies this`wire
      ensures wire == Stamp(old(wire), cs, payload)
    {
      var todo := cs;
      while todo != {}
        invariant todo <= cs
        invariant wire == Stamp(old(wire), cs - todo, payload)
        decreases todo
      {
        var c :| c in todo;
        wire := wire[c := wire[c] + [payload]];
        todo := todo - {c};
      }
      assert cs - todo == cs;
    }

    method SendToUsers(uids: seq<Uid>, payload: Payload)
      requires Valid()
      modifies this`wire
      ensures Valid()
      ensures wire == FanOut(old(wire), conns, uids, payload)
    {
      for i := 0 to |uids|
        invariant Valid() && wire.Keys == old(wire.Keys)
        invariant wire == FanOut(old(wire), conns, uids[..i], payload)
      {
        FanOutNext(old(wire), conns, uids, i, payload);
        WriteEach(ConnsOf(conns, uids[i]), payload);
      }
      assert uids[..|uids|] == uids;
    }

    method BroadcastAll(payload: Payload)
      requires Valid() && OneUidEach(Pairs(conns))
      modifies this`wire
      ensures Valid()
      ensures wire == Stamp(old(wire), Reached(Pairs(conns), true, {}), payload)
    {
      var todo := conns.Keys;
      while todo != {}
        invariant todo <= conns.Keys
        invariant Valid() && wire.Keys == old(wire.Keys)
        invariant wire == Stamp(old(wire), Reached(Pairs(conns), false, conns.Keys - todo), payload)
        decreases todo
      {
        var u :| u in todo;
        ghost var done := conns.Keys - todo;
        StampNext(old(wire), conns, done, u, payload);
        WriteEach(conns[u], payload);
        todo := todo - {u};
        assert conns.Keys - todo == done + {u};
      }
      assert Reached(Pairs(conns), false, conns.Keys - todo) == Reached(Pairs(conns), true, {});
    }
  }
}
