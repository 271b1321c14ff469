/** The expiring member cache of internal/cache/members.go, keyed by group id. */
module MemberCaches {
  import opened Domain
  import opened Tables

  datatype Entry = Entry(uids: seq<Uid>, expiry: Time)

  ghost function Count(m: map<RoomId, nat>, g: RoomId): nat {
    if g in m then m[g] else 0
  }

  // Every entry, expired or not, lists its group's current members once each. Entries name
  // existing groups only, so a newly created group starts without one.
  ghost predicate Coherent(entries: map<RoomId, Entry>, t: Tables) {
    forall g :: g in entries ==>
      g in t.groups && NoDup(entries[g].uids) && ToSet(entries[g].uids) == MemberUids(t, g)
  }

  class MemberCache {
    var entries: map<RoomId, Entry>

    // Bookkeeping for the query bound: since `born`, per group, the database reads made to
    // fill an entry, the invalidations and the entries found expired; `clock` is the latest
    // instant seen.
    ghost const born: Time
    ghost var clock: Time
    ghost var queries: map<RoomId, nat>
    ghost var drops: map<RoomId, nat>
    ghost var expiries: map<RoomId, nat>

    constructor (ghost now: Time)
      ensures entries == map[] && Thrifty() && clock == born == now
      ensures queries == map[] && drops == map[] && expiries == map[]
    {
      entries := map[];
      born, clock, queries, drops, expiries := now, now, map[], map[], map[];
    }

    // Amortisation: each query has bought an entry, which is still there, was invalidated or
    // has expired; and each expiry took a whole time to live.
    ghost predicate Thrifty()
      reads this
    {
      && born <= clock
      && forall g :: ThriftyFor(g, g in entries, if g in entries then entries[g].expiry else clock + MEMBER_CACHE_TTL)
    }

    ghost predicate ThriftyFor(g: RoomId, present: bool, expiry: Time)
      reads this`clock, this`queries, this`drops, this`expiries
    {
      && expiry <= clock + MEMBER_CACHE_TTL
      && Count(queries, g) <= Count(drops, g) + Count(expiries, g) + (if present then 1 else 0)
      && MEMBER_CACHE_TTL * Count(expiries, g) + born + MEMBER_CACHE_TTL <= expiry
    }

    // Zero when there is no entry.
    ghost function ExpiryOf(g: RoomId): Time
      reads this`entries
    {
      if g in entries then entries[g].expiry else 0
    }

    // The same with one query for group g not yet paid back by an entry.
    ghost predicate ThriftyOnceSet(g: RoomId)
      reads this
    {
      && g !in entries && born <= clock
      && forall q ::
           ThriftyFor(q, q == g || q in entries, if q in entries then entries[q].expiry else clock + MEMBER_CACHE_TTL)
    }

    // Called beside a database read that a miss for g has made necessary.
    ghost method NoteQuery(g: RoomId)
      requires g !in entries
      modifies this`queries
      ensures forall q :: Count(queries, q) == old(Count(queries, q)) + if q == g then 1 else 0
      ensures old(Thrifty()) ==> ThriftyOnceSet(g)
    {
      queries := queries[g := Count(queries, g) + 1];
    }

    method Get(g: RoomId, now: Time) returns (hit: Option<seq<Uid>>)
      requires clock <= now
      modifies this`entries, this`clock, this`expiries
      ensures clock == now
      ensures hit == if g in old(entries) && now < old(entries)[g].expiry then Some(old(entries)[g].uids) else None
      ensures entries == if hit.Some? then old(entries) else old(entries) - {g}
      ensures forall q :: Count(expiries, q)
                       == old(Count(expiries, q)) + if q == g && g in old(entries) && hit.None? then 1 else 0
      ensures old(Thrifty()) ==> Thrifty()
    {
      clock := now;
      hit := None;
      if g in entries {
        if now < entries[g].expiry {
          hit := Some(entries[g].uids);
        } else {
          entries := entries - {g};
          expiries := expiries[g := Count(expiries, g) + 1];
        }
      }
    }

    method Set(g: RoomId, uids: seq<Uid>, ttl: nat, now: Time)
      requires clock <= now
      modifies this`entries, this`clock
      ensures clock == now && entries == old(entries)[g := Entry(uids, now + ttl)]
      ensures ttl == MEMBER_CACHE_TTL && old(ThriftyOnceSet(g)) ==> Thrifty()
    {
      clock := now;
      entries := entries[g := Entry(uids, now + ttl)];
    }

    method Invalidate(g: RoomId)
      modifies this`entries, this`drops
      ensures entries == old(entries) - {g}
      ensures forall q :: Count(drops, q) == old(Count(drops, q)) + if q == g then 1 else 0
      ensures old(Thrifty()) ==> Thrifty()
    {
      entries := entries - {g};
      drops := drops[g := Count(drops, g) + 1];
    }

    // One query to begin with, one per invalidation and one per expiry; and expiries are at
    // least a time to live apart.
    lemma QueryBound(g: RoomId)
      requires Thrifty()
      ensures Count(queries, g) <= 1 + Count(drops, g) + Count(expiries, g)
      ensures 300 * Count(expiries, g) <= clock - born
    {
      var present, expiry := g in entries, if g in entries then entries[g].expiry else clock + MEMBER_CACHE_TTL;
      assert ThriftyFor(g, present, expiry);
    }

    lemma QueryBounds()
      requires Thrifty()
      ensures forall g ::
                && Count(queries, g) <= 1 + Count(drops, g) + Count(expiries, g)
                && 300 * Count(expiries, g) <= clock - born
    {
      forall g { QueryBound(g); }
    }
  }
}
