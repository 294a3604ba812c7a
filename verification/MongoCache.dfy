/** The session cache in front of the collection: a map kept in insertion order, and the reads still waiting.
  *
  * `remember` sweeps from the oldest end and stops at the first entry young enough to keep. That
  * drops exactly the aged ones because an entry set again is moved to the young end first.
  */
module MongoCache {
  import opened Wrappers

  /** A cached session is the object itself, here its identity. */
  datatype Cached = Cached(id: string, session: nat, cachedAt: int)

  type Cache = seq<Cached>

  predicate HasAged(cached: Cached, now: int, maxAge: int) {
    now - cached.cachedAt > maxAge
  }

  function Find(cache: Cache, id: string): (r: Option<Cached>)
    ensures r.Some? ==> r.value in cache && r.value.id == id
    ensures r.None? ==> forall c :: c in cache ==> c.id != id
  {
    if cache == [] then None
    else if cache[0].id == id then Some(cache[0])
    else Find(cache[1..], id)
  }

  function Without(cache: Cache, ids: set<string>): (r: Cache)
    ensures forall c :: c in r <==> c in cache && c.id !in ids
  {
    if cache == [] then []
    else (if cache[0].id in ids then [] else [cache[0]]) + Without(cache[1..], ids)
  }

  function DropAged(cache: Cache, now: int, maxAge: int): (r: Cache)
    ensures forall c :: c in r ==> c in cache
  {
    if cache != [] && HasAged(cache[0], now, maxAge) then DropAged(cache[1..], now, maxAge) else cache
  }

  function Remember(cache: Cache, id: string, session: nat, now: int, maxAge: int): Cache {
    Without(DropAged(cache, now, maxAge), {id}) + [Cached(id, session, now)]
  }

  // ----- What the store holds in memory, and what its operations do to it -----

  /** The cache, and the reads under way: each one's id under its own token. */
  datatype Memory = Memory(cache: Cache, inFlightGets: map<nat, string>)

  function Forgetting(m: Memory, ids: set<string>): Memory {
    Memory(Without(m.cache, ids), map r | r in m.inFlightGets && m.inFlightGets[r] !in ids :: m.inFlightGets[r])
  }

  /** The cached session a get answers with, if it is young enough. */
  function Young(cache: Cache, id: string, now: int, maxAge: int): Option<nat> {
    var cached := Find(cache, id);
    if cached.Some? && !HasAged(cached.value, now, maxAge) then Some(cached.value.session) else None
  }

  function Asking(m: Memory, read: nat, id: string, now: int, maxAge: int): Memory {
    if Young(m.cache, id, now, maxAge).Some? then m
    else Memory(Without(m.cache, {id}), m.inFlightGets[read := id])
  }

  /** A read answered: cached unless it found nothing or was withdrawn meanwhile. */
  function Answered(m: Memory, read: nat, id: string, found: Option<nat>, now: int, maxAge: int): Memory {
    Memory(if found.Some? && read in m.inFlightGets then Remember(m.cache, id, found.value, now, maxAge) else m.cache,
           m.inFlightGets - {read})
  }

  /** A save written: a cached object other than the one saved was left behind by it. */
  function Saved(m: Memory, id: string, session: nat): Memory {
    var cached := Find(m.cache, id);
    if cached.Some? && cached.value.session == session then m else Forgetting(m, {id})
  }

  // ----- The age order -----

  predicate Ordered(cache: Cache) {
    forall i, j :: 0 <= i < j < |cache| ==> cache[i].cachedAt <= cache[j].cachedAt && cache[i].id != cache[j].id
  }

  predicate Past(cache: Cache, now: int) {
    forall c :: c in cache ==> c.cachedAt <= now
  }

  /** Over a cache in age order, stopping at the first young entry drops every aged one and nothing else. */
  lemma {:induction false} SweepIsExact(cache: Cache, now: int, maxAge: int)
    requires Ordered(cache)
    ensures Ordered(DropAged(cache, now, maxAge))
    ensures forall c :: c in DropAged(cache, now, maxAge) <==> c in cache && now - c.cachedAt <= maxAge
  {
    if cache != [] && HasAged(cache[0], now, maxAge) {
      SweepIsExact(cache[1..], now, maxAge);
    }
  }

  lemma {:induction false} WithoutStaysOrdered(cache: Cache, ids: set<string>, now: int)
    requires Ordered(cache) && Past(cache, now)
    ensures Ordered(Without(cache, ids)) && Past(Without(cache, ids), now)
  {
    if cache != [] {
      WithoutStaysOrdered(cache[1..], ids, now);
      var rest := Without(cache[1..], ids);
      forall j | 0 <= j < |rest|
        ensures cache[0].cachedAt <= rest[j].cachedAt && cache[0].id != rest[j].id
      {
        assert rest[j] in cache[1..];
      }
    }
  }

  lemma NothingIsOrdered(now: int)
    ensures Ordered([]) && Past([], now)
  {
  }

  lemma LaterIsPast(cache: Cache, now: int, later: int)
    requires Past(cache, now) && now <= later
    ensures Past(cache, later)
  {
  }

  /** Remembering keeps the order, holds the session under its id alone, and keeps every other entry still young. */
  lemma RememberKeepsOrder(cache: Cache, id: string, session: nat, now: int, maxAge: int)
    requires Ordered(cache) && Past(cache, now)
    ensures var next := Remember(cache, id, session, now, maxAge);
            && Ordered(next) && Past(next, now)
            && Find(next, id) == Some(Cached(id, session, now))
            && (forall c :: c in next && c.id != id <==> c in cache && c.id != id && now - c.cachedAt <= maxAge)
  {
    var young := DropAged(cache, now, maxAge);
    SweepIsExact(cache, now, maxAge);
    WithoutStaysOrdered(young, {id}, now);
    FindLast(Without(young, {id}), Cached(id, session, now));
  }

  lemma {:induction false} FindLast(cache: Cache, last: Cached)
    requires forall c :: c in cache ==> c.id != last.id
    ensures Find(cache + [last], last.id) == Some(last)
  {
    if cache != [] {
      assert (cache + [last])[1..] == cache[1..] + [last];
      FindLast(cache[1..], last);
    }
  }

  // ----- What the operations mean, entry by entry -----

  /** The one entry an ordered cache holds for an id, if it holds any. */
  lemma {:induction false} FindIsTheOne(cache: Cache, c: Cached)
    requires Ordered(cache) && c in cache
    ensures Find(cache, c.id) == Some(c)
  {
    if cache[0] != c {
      assert cache[0].id != c.id;
      FindIsTheOne(cache[1..], c);
    }
  }

  /** A get is answered from memory exactly with a session cached under its id no longer than maxAge ago. */
  lemma YoungIs(cache: Cache, id: string, now: int, maxAge: int, session: nat)
    requires Ordered(cache)
    ensures Young(cache, id, now, maxAge) == Some(session)
            <==> exists at: int :: Cached(id, session, at) in cache && now - at <= maxAge
  {
    if at: int :| Cached(id, session, at) in cache && now - at <= maxAge {
      FindIsTheOne(cache, Cached(id, session, at));
    }
    var found := Find(cache, id);
    if found.Some? {
      assert found.value == Cached(id, found.value.session, found.value.cachedAt);
    }
  }

  /** Forgetting ids drops their entries, and withdraws the reads that wait on them and no others. */
  lemma ForgettingIs(m: Memory, ids: set<string>)
    ensures var next := Forgetting(m, ids);
            && (forall c :: c in next.cache <==> c in m.cache && c.id !in ids)
            && (forall r :: r in next.inFlightGets <==> r in m.inFlightGets && m.inFlightGets[r] !in ids)
            && (forall r :: r in next.inFlightGets ==> next.inFlightGets[r] == m.inFlightGets[r])
  {
  }

  /** A get not answered from memory drops what had aged under its id, and waits under its own token. */
  lemma AskingIs(m: Memory, read: nat, id: string, now: int, maxAge: int)
    requires Ordered(m.cache) && read !in m.inFlightGets
    ensures var next := Asking(m, read, id, now, maxAge);
            if exists c :: c in m.cache && c.id == id && now - c.cachedAt <= maxAge then next == m
            else
              && (forall c :: c in next.cache <==> c in m.cache && c.id != id)
              && next.inFlightGets == m.inFlightGets[read := id]
  {
    if c :| c in m.cache && c.id == id && now - c.cachedAt <= maxAge {
      FindIsTheOne(m.cache, c);
    }
  }

  /** An answered read waits no more. What it found is cached, as of now, unless it was withdrawn; what it did not find
    * is not, and what had aged goes whenever something is cached. */
  lemma AnsweredIs(m: Memory, read: nat, id: string, found: Option<nat>, now: int, maxAge: int)
    requires Ordered(m.cache) && Past(m.cache, now)
    ensures var next := Answered(m, read, id, found, now, maxAge);
            && next.inFlightGets == m.inFlightGets - {read}
            && (found.None? || read !in m.inFlightGets ==> next.cache == m.cache)
            && (found.Some? && read in m.inFlightGets ==>
                  forall c :: c in next.cache <==>
                    if c.id == id then c == Cached(id, found.value, now)
                    else c in m.cache && now - c.cachedAt <= maxAge)
  {
    if found.Some? && read in m.inFlightGets {
      RememberIs(m.cache, id, found.value, now, maxAge);
    }
  }

  lemma RememberIs(cache: Cache, id: string, session: nat, now: int, maxAge: int)
    requires Ordered(cache) && Past(cache, now)
    ensures forall c :: c in Remember(cache, id, session, now, maxAge) <==>
              if c.id == id then c == Cached(id, session, now) else c in cache && now - c.cachedAt <= maxAge
  {
    SweepIsExact(cache, now, maxAge);
    hide DropAged, Ordered;
    var kept := Without(DropAged(cache, now, maxAge), {id});
    var last := Cached(id, session, now);
    assert forall c :: c in kept + [last] <==> c in kept || c == last;
  }

  /** A save leaves the object it saved where it is cached; any other under that id goes, with the reads that wait on
    * it. */
  lemma SavedIs(m: Memory, id: string, session: nat)
    requires Ordered(m.cache)
    ensures var next := Saved(m, id, session);
            if exists at: int :: Cached(id, session, at) in m.cache then next == m
            else
              && (forall c :: c in next.cache <==> c in m.cache && c.id != id)
              && (forall r :: r in next.inFlightGets <==> r in m.inFlightGets && m.inFlightGets[r] != id)
  {
    if at: int :| Cached(id, session, at) in m.cache {
      FindIsTheOne(m.cache, Cached(id, session, at));
    }
    var found := Find(m.cache, id);
    if found.Some? {
      assert found.value == Cached(id, found.value.session, found.value.cachedAt);
    }
  }
}
