/** The Mongo session store in place: what its methods do to the cache and the waiting reads between awaits, and the
  * keyset-paged sweep that erases by age.
  */
module MongoSessionStores {
  import opened Wrappers
  import opened StringOrders
  import opened MongoCache
  import opened MongoRaces

  /** A foreign id is one of another type, which a page of string ids never returns. */
  datatype DocumentId = StringId(id: string) | ForeignId(raw: int)

  datatype Document = Document(createdAt: int, content: int)

  type Documents = map<DocumentId, Document>

  const ERASE_BATCH_SIZE: nat := 1000

  /** The string ids created strictly before the cutoff. */
  function OlderThan(documents: Documents, cutoff: int): set<string> {
    set d | d in documents && d.StringId? && documents[d].createdAt < cutoff :: d.id
  }

  function IdsAfter(ids: set<string>, after: Option<string>): set<string> {
    set s | s in ids && (after.Some? ==> Less(after.value, s))
  }

  function Page(documents: Documents, cutoff: int, after: Option<string>, limit: nat): (page: seq<string>)
    ensures |page| <= limit
  {
    var ids := Ascending(IdsAfter(OlderThan(documents, cutoff), after));
    if |ids| <= limit then ids else ids[..limit]
  }

  function Erased(documents: Documents, ids: set<string>): Documents {
    map d | d in documents && !(d.StringId? && d.id in ids) :: documents[d]
  }

  function SetOf(page: seq<string>): set<string> {
    set s | s in page
  }

  /** A page is the least of what is left: everything of the rest comes after its last id. */
  lemma PageIsLeast(documents: Documents, cutoff: int, after: Option<string>, limit: nat)
    requires limit > 0
    ensures var page := Page(documents, cutoff, after, limit);
            var ids := IdsAfter(OlderThan(documents, cutoff), after);
            && |SetOf(page)| == |page| && SetOf(page) <= ids
            && (|page| < limit ==> SetOf(page) == ids)
            && (page != [] ==> forall s :: s in ids ==>
              (s in page <==> s == page[|page| - 1] || Less(s, page[|page| - 1])))
  {
    hide OlderThan, IdsAfter, Less;
    var ids := IdsAfter(OlderThan(documents, cutoff), after);
    var all := Ascending(ids);
    var page := Page(documents, cutoff, after, limit);
    assert page == all[..|page|];
    AllAscend(ids);
    AscendingIsDistinct(all, |page|);
    DistinctSize(page);
    if page != [] {
      forall s | s in ids
        ensures s in page <==> s == page[|page| - 1] || Less(s, page[|page| - 1])
      {
        assert s in all;
        BeginningIsLeast(all, page, s);
      }
    }
  }

  predicate Ascends(all: seq<string>) {
    forall i, j :: 0 <= i < j < |all| ==> Less(all[i], all[j])
  }

  lemma AllAscend(ids: set<string>)
    ensures Ascends(Ascending(ids))
  {
    hide Less;
    var all := Ascending(ids);
    forall i, j | 0 <= i < j < |all|
      ensures Less(all[i], all[j])
    {
      AscendingAscends(ids, i, j);
    }
  }

  predicate Distinct(page: seq<string>) {
    forall i, j :: 0 <= i < j < |page| ==> page[i] != page[j]
  }

  lemma AscendingIsDistinct(all: seq<string>, n: nat)
    requires Ascends(all) && n <= |all|
    ensures Distinct(all[..n])
  {
    hide Less;
    var page := all[..n];
    forall i, j | 0 <= i < j < n
      ensures page[i] != page[j]
    {
      assert Less(all[i], all[j]);
      NotBothLess(all[i], all[j]);
    }
  }

  lemma BeginningIsLeast(all: seq<string>, page: seq<string>, s: string)
    requires 0 < |page| <= |all| && page == all[..|page|] && s in all && Ascends(all)
    ensures s in page <==> s == page[|page| - 1] || Less(s, page[|page| - 1])
  {
    hide Less;
    var last := |page| - 1;
    var i :| 0 <= i < |all| && all[i] == s;
    assert page[last] == all[last];
    if i <= last {
      assert page[i] == s;
    } else {
      assert Less(all[last], all[i]);
      NotBothLess(all[last], all[i]);
      forall k | 0 <= k < |page|
        ensures page[k] != s
      {
        assert Less(all[k], all[i]);
        NotBothLess(all[k], all[i]);
      }
    }
  }

  lemma NotBothLess(a: string, b: string)
    requires Less(a, b)
    ensures !Less(b, a) && a != b
  {
    LessIsStrict(a);
    if Less(b, a) {
      LessIsTransitive(a, b, a);
    }
  }

  lemma {:induction false} DistinctSize(page: seq<string>)
    requires Distinct(page)
    ensures |SetOf(page)| == |page|
  {
    if page == [] {
      assert SetOf(page) == {};
    } else {
      DistinctSize(page[1..]);
      assert SetOf(page) == {page[0]} + SetOf(page[1..]);
      assert page[0] !in page[1..];
    }
  }

  class Collection {
    var documents: Documents

    method FindPage(cutoff: int, after: Option<string>, limit: nat) returns (page: seq<string>)
      ensures page == Page(documents, cutoff, after, limit)
    {
      page := Page(documents, cutoff, after, limit);
    }

    /** What a delete by id removes, and how many there were. */
    method DeleteMany(ids: set<string>) returns (deletedCount: nat)
      modifies this
      ensures documents == Erased(old(documents), ids)
      ensures deletedCount == |set s | s in ids && StringId(s) in old(documents)|
    {
      deletedCount := |set s | s in ids && StringId(s) in documents|;
      documents := Erased(documents, ids);
    }
  }

  class MongoSessionStore {
    var cache: Cache
    var inFlightGets: map<nat, string>
    const maxAge: int
    const collection: Collection

    constructor (collection: Collection, maxAge: int)
      ensures this.collection == collection && this.maxAge == maxAge && cache == [] && inFlightGets == map[]
    {
      this.collection, this.maxAge, cache, inFlightGets := collection, maxAge, [], map[];
    }

    function InMemory(): Memory
      reads this
    {
      Memory(cache, inFlightGets)
    }

    method Remember(id: string, session: nat, now: int)
      modifies this`cache
      ensures cache == MongoCache.Remember(old(cache), id, session, now, maxAge)
    {
      while |cache| > 0
        invariant DropAged(cache, now, maxAge) == DropAged(old(cache), now, maxAge)
        decreases |cache|
      {
        if !HasAged(cache[0], now, maxAge) {
          break;
        }
        cache := cache[1..];
      }
      cache := Without(cache, {id});
      cache := cache + [Cached(id, session, now)];
    }

    method ForgetIds(ids: set<string>)
      modifies this
      ensures InMemory() == Forgetting(old(InMemory()), ids)
    {
      cache := Without(cache, ids);
      ghost var was := inFlightGets;
      var left := inFlightGets.Keys;
      while left != {}
        invariant left <= inFlightGets.Keys <= was.Keys && cache == Without(old(cache), ids)
        invariant forall r :: r in inFlightGets ==> inFlightGets[r] == was[r]
        invariant forall r :: r in was && r !in left ==> (r in inFlightGets <==> was[r] !in ids)
        decreases left
      {
        var r :| r in left;
        if inFlightGets[r] in ids {
          inFlightGets := inFlightGets - {r};
        }
        left := left - {r};
      }
    }

    method ForgetAll()
      modifies this
      ensures InMemory() == Memory([], map[])
    {
      cache := [];
      inFlightGets := map[];
    }

    /** A get up to its await: the cached session, or a read that waits under its own token. */
    method BeginGet(id: string, read: nat, now: int) returns (cached: Option<nat>)
      requires read !in inFlightGets
      modifies this
      ensures cached == Young(old(cache), id, now, maxAge)
      ensures InMemory() == Asking(old(InMemory()), read, id, now, maxAge)
    {
      var held := Find(cache, id);
      if held.Some? && !HasAged(held.value, now, maxAge) {
        return Some(held.value.session);
      }
      cache := Without(cache, {id});
      inFlightGets := inFlightGets[read := id];
      return None;
    }

    /** A get after its await: what it read is returned, and cached unless an erasure withdrew the read meanwhile. */
    method EndGet(id: string, read: nat, found: Option<nat>, now: int) returns (session: Option<nat>)
      modifies this
      ensures session == found && InMemory() == Answered(old(InMemory()), read, id, found, now, maxAge)
    {
      if found.Some? && read in inFlightGets {
        Remember(id, found.value, now);
      }
      inFlightGets := inFlightGets - {read};
      session := found;
    }

    /** A save after its write: a cached object other than the one saved is left behind by it, so it goes. */
    method EndSave(id: string, session: nat)
      modifies this
      ensures InMemory() == Saved(old(InMemory()), id, session)
    {
      var held := Find(cache, id);
      if held.None? || held.value.session != session {
        ForgetIds({id});
      }
    }

    method EraseBatch(ids: set<string>) returns (deletedCount: nat)
      modifies this, collection
      ensures collection.documents == Erased(old(collection.documents), ids)
      ensures deletedCount == |set s | s in ids && StringId(s) in old(collection.documents)|
      ensures InMemory() == Forgetting(old(InMemory()), ids)
    {
      deletedCount := collection.DeleteMany(ids);
      ForgetIds(ids);
    }

    /** The sweep, on a collection no one else changes: it ends, it deletes exactly the string ids created before the
      * cutoff, says how many they were, and leaves none of them cached. */
    method EraseOlderThan(cutoff: int) returns (erased: nat)
      modifies this, collection
      ensures var was := old(collection.documents);
              && (forall d :: d in collection.documents <==>
                    d in was && !(d.StringId? && was[d].createdAt < cutoff))
              && (forall d :: d in collection.documents ==> collection.documents[d] == was[d])
              && erased == |set d | d in was && d.StringId? && was[d].createdAt < cutoff|
              && (forall c :: c in cache <==>
                    c in old(cache) && !(StringId(c.id) in was && was[StringId(c.id)].createdAt < cutoff))
    {
      hide OlderThan, IdsAfter, Erased, Page, Without, Less, Swept, SetOf;
      ghost var was := collection.documents;
      ErasedAre(was, cutoff);
      ghost var done: set<string> := {};
      erased := 0;
      var after: Option<string> := None;
      SweepStarts(was, cutoff);
      while true
        invariant Swept(was, cutoff, done, collection.documents, after) && erased == |done|
        invariant forall c :: c in cache <==> c in old(cache) && c.id !in done
        decreases |OlderThan(was, cutoff) - done|
      {
        var page := collection.FindPage(cutoff, after, ERASE_BATCH_SIZE);
        if |page| == 0 {
          SweepEnds(was, cutoff, done, collection.documents, after);
          return;
        }
        var batch := SetOf(page);
        SweepGoesOn(was, cutoff, done, collection.documents, after, page);
        after := Some(page[|page| - 1]);
        var deleted := EraseBatch(batch);
        erased := erased + deleted;
        done := done + batch;
        if |page| < ERASE_BATCH_SIZE {
          return;
        }
      }
    }
  }

  /** What erasing the outdated ids comes to, document by document. */
  lemma ErasedAre(was: Documents, cutoff: int)
    ensures var doomed := OlderThan(was, cutoff); var left := Erased(was, doomed);
            && (forall s :: s in doomed <==> StringId(s) in was && was[StringId(s)].createdAt < cutoff)
            && (forall d :: d in left <==> d in was && !(d.StringId? && was[d].createdAt < cutoff))
            && (forall d :: d in left ==> left[d] == was[d])
            && |doomed| == |set d | d in was && d.StringId? && was[d].createdAt < cutoff|
  {
    var doomed := OlderThan(was, cutoff);
    forall s | StringId(s) in was && was[StringId(s)].createdAt < cutoff
      ensures s in doomed
    {
      assert StringId(s).id == s;
    }
    AsManyDocuments(doomed);
    assert (set s | s in doomed :: StringId(s)) == (set d | d in was && d.StringId? && was[d].createdAt < cutoff);
  }

  lemma {:induction false} AsManyDocuments(ids: set<string>)
    ensures |set s | s in ids :: StringId(s)| == |ids|
    decreases |ids|
  {
    if ids != {} {
      var id :| id in ids;
      AsManyDocuments(ids - {id});
      var rest := set s | s in ids - {id} :: StringId(s);
      assert (set s | s in ids :: StringId(s)) == rest + {StringId(id)};
    }
  }

  /** How far a sweep has come: what is done is deleted, and what a next page would select is exactly what is left to
    * do. */
  ghost predicate Swept(was: Documents, cutoff: int, done: set<string>, documents: Documents, after: Option<string>) {
    && done <= OlderThan(was, cutoff)
    && documents == Erased(was, done)
    && IdsAfter(OlderThan(documents, cutoff), after) == OlderThan(was, cutoff) - done
  }

  lemma SweepStarts(was: Documents, cutoff: int)
    ensures Swept(was, cutoff, {}, was, None)
  {
    assert Erased(was, {}) == was;
  }

  lemma SweepEnds(was: Documents, cutoff: int, done: set<string>, documents: Documents, after: Option<string>)
    requires Swept(was, cutoff, done, documents, after) && Page(documents, cutoff, after, ERASE_BATCH_SIZE) == []
    ensures done == OlderThan(was, cutoff) && documents == Erased(was, done)
  {
    hide OlderThan, IdsAfter, Erased, Page;
    PageIsLeast(documents, cutoff, after, ERASE_BATCH_SIZE);
  }

  lemma SweepGoesOn(was: Documents, cutoff: int, done: set<string>, documents: Documents, after: Option<string>,
      page: seq<string>)
    requires Swept(was, cutoff, done, documents, after) && page != []
    requires page == Page(documents, cutoff, after, ERASE_BATCH_SIZE)
    ensures var batch := SetOf(page); var doomed := OlderThan(was, cutoff);
            && Swept(was, cutoff, done + batch, Erased(documents, batch), Some(page[|page| - 1]))
            && |done + batch| == |done| + |set s | s in batch && StringId(s) in documents|
            && |doomed - (done + batch)| < |doomed - done|
            && (|page| < ERASE_BATCH_SIZE ==> done + batch == doomed && Erased(documents, batch) == Erased(was, doomed))
  {
    hide OlderThan, IdsAfter, Page, Less, Erased;
    var batch, doomed := SetOf(page), OlderThan(was, cutoff);
    PageIsLeast(documents, cutoff, after, ERASE_BATCH_SIZE);
    assert page[|page| - 1] in page;
    ErasedTwice(was, done, batch);
    BatchLeavesRest(was, doomed, done, batch, page, cutoff);
    AfterNarrows(documents, cutoff, after);
    DoomedAreThere(documents, cutoff, batch);
    assert doomed - done == (doomed - (done + batch)) + batch;
    if |page| < ERASE_BATCH_SIZE {
      assert done + batch == doomed;
    }
  }

  lemma AfterNarrows(documents: Documents, cutoff: int, after: Option<string>)
    ensures IdsAfter(OlderThan(documents, cutoff), after) <= OlderThan(documents, cutoff)
  {
  }

  lemma ErasedTwice(was: Documents, done: set<string>, batch: set<string>)
    ensures Erased(Erased(was, done), batch) == Erased(was, done + batch)
  {
  }

  lemma DoomedAreThere(documents: Documents, cutoff: int, batch: set<string>)
    requires batch <= OlderThan(documents, cutoff)
    ensures (set s | s in batch && StringId(s) in documents) == batch
  {
    forall s | s in batch
      ensures StringId(s) in documents
    {
      assert s in OlderThan(documents, cutoff);
    }
  }

  lemma BatchLeavesRest(was: Documents, doomed: set<string>, done: set<string>, batch: set<string>, page: seq<string>,
      cutoff: int)
    requires doomed == OlderThan(was, cutoff) && done <= doomed && batch == SetOf(page) && batch <= doomed - done
      && page != []
    requires forall s :: s in doomed - done ==> (s in page <==> s == page[|page| - 1] || Less(s, page[|page| - 1]))
    ensures IdsAfter(OlderThan(Erased(was, done + batch), cutoff), Some(page[|page| - 1])) == doomed - (done + batch)
  {
    var last := page[|page| - 1];
    assert last in page;
    var left := OlderThan(Erased(was, done + batch), cutoff);
    assert left == doomed - (done + batch) by { ErasedLeaves(was, done + batch, cutoff); }
    forall s | s in left
      ensures Less(last, s)
    {
      LessIsTotal(s, last);
    }
  }

  lemma ErasedLeaves(was: Documents, gone: set<string>, cutoff: int)
    ensures OlderThan(Erased(was, gone), cutoff) == OlderThan(was, cutoff) - gone
  {
    var left := Erased(was, gone);
    forall s | s in OlderThan(was, cutoff) && s !in gone
      ensures s in OlderThan(left, cutoff)
    {
      assert StringId(s) in left;
    }
  }
}
