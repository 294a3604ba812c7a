/** An erased session stays erased, however gets, saves, failures and other erasures interleave with its erasure. */
module MongoErasures {
  import opened Wrappers
  import opened MongoCache
  import opened MongoRaces

  predicate Creates(step: Step, id: string) {
    step.CreateAsks? && step.id == id
  }

  /** The document is gone and no create of its id is under way. */
  predicate Gone(st: Store, id: string) {
    id !in st.db && forall c :: c in st.creates ==> st.creates[c].id != id
  }

  predicate Uncached(st: Store, id: string) {
    forall c :: c in st.cache ==> c.id != id
  }

  /** No read that found the document may still cache it. */
  predicate Withdrawn(st: Store, id: string) {
    forall r :: r in st.waiting && st.waiting[r].id == id && st.waiting[r].answer.Some?
      && st.waiting[r].answer.value.Some?
      ==> r !in st.inFlightGets
  }

  predicate Forgotten(st: Store, id: string) {
    Gone(st, id) && Uncached(st, id) && Withdrawn(st, id)
  }

  /** No save brings a deleted document back: only a create writes an id that is not there. */
  lemma GoneStaysGone(st: Store, step: Step, id: string)
    requires Gone(st, id) && !Creates(step, id)
    ensures Gone(Next(st, step), id)
  {
    hide Forgetting, Asking, Answered, Saved, Remember, Young;
  }

  lemma StaysUncached(st: Store, step: Step, id: string)
    requires Inv(st) && Forgotten(st, id)
    ensures Uncached(Next(st, step), id)
  {
    hide Next, Inv;
    forall entry | entry in Next(st, step).cache
      ensures entry.id != id
    {
      if entry !in st.cache {
        OnlyReadsAndCreatesCache(st, step, entry);
      }
    }
  }

  lemma StaysWithdrawn(st: Store, step: Step, id: string)
    requires Withdrawn(st, id) && id !in st.db
    ensures Withdrawn(Next(st, step), id)
  {
    hide Remember, Without, DropAged, Find, HasAged, Deleted;
  }

  lemma ForgottenStaysForgotten(st: Store, step: Step, id: string)
    requires Inv(st) && Forgotten(st, id) && !Creates(step, id)
    ensures Forgotten(Next(st, step), id)
  {
    StaysUncached(st, step, id);
    StaysWithdrawn(st, step, id);
    GoneStaysGone(st, step, id);
    hide Inv, Uncached, Withdrawn, Gone, Next;
  }

  /** The erasure's `finally` drops the entry and withdraws every read that may have found the document before it
    * went. */
  lemma ErasingForgets(st: Store, e: nat, id: string)
    requires Inv(st) && Gone(st, id) && e in st.erasures && Covers(st.erasures[e], id)
    ensures Forgotten(Next(st, EraseResumes(e)), id)
  {
  }

  lemma {:induction false} GoneThroughout(st: Store, steps: seq<Step>, id: string)
    requires Gone(st, id) && forall step :: step in steps ==> !Creates(step, id)
    ensures Gone(After(st, steps), id)
    decreases |steps|
  {
    hide Next, Gone, Creates;
    if steps != [] {
      GoneStaysGone(st, steps[0], id);
      GoneThroughout(Next(st, steps[0]), steps[1..], id);
    }
  }

  lemma {:induction false} ForgottenThroughout(st: Store, steps: seq<Step>, id: string)
    requires Inv(st) && Forgotten(st, id) && forall step :: step in steps ==> !Creates(step, id)
    ensures Forgotten(After(st, steps), id)
    decreases |steps|
  {
    hide Next, Inv, Forgotten, Creates;
    if steps != [] {
      ForgottenStaysForgotten(st, steps[0], id);
      NextKeeps(st, steps[0]);
      ForgottenThroughout(Next(st, steps[0]), steps[1..], id);
    }
  }

  lemma {:induction false} ErasureWaits(st: Store, steps: seq<Step>, e: nat)
    requires e in st.erasures && forall step :: step in steps ==> step != EraseResumes(e)
    ensures e in After(st, steps).erasures && After(st, steps).erasures[e] == st.erasures[e]
    decreases |steps|
  {
    if steps != [] {
      assert steps[0] in steps && forall step :: step in steps[1..] ==> step in steps;
      ErasureKept(st, steps[0], e);
      ErasureWaits(Next(st, steps[0]), steps[1..], e);
    }
  }

  lemma ErasureKept(st: Store, step: Step, e: nat)
    requires e in st.erasures && step != EraseResumes(e)
    ensures e in Next(st, step).erasures && Next(st, step).erasures[e] == st.erasures[e]
  {
    hide Remember, Without, Find, HasAged;
  }

  /** Steps that may come between an erasure's delete and its return, and after it, short of a new create of the id. */
  predicate MayCome(between: seq<Step>, later: seq<Step>, e: nat, id: string) {
    && (forall step :: step in between ==> !Creates(step, id) && step != EraseResumes(e))
    && (forall step :: step in later ==> !Creates(step, id))
  }

  /** Once the delete has been applied the document is never back, and once the erasure has returned the id is not
    * cached. */
  predicate StaysErased(st: Store, e: nat, id: string, between: seq<Step>, later: seq<Step>) {
    var applied := Next(st, EraseIsApplied(e));
    var held := After(applied, between);
    var last := After(Next(held, EraseResumes(e)), later);
    && id !in applied.db && id !in held.db && id !in last.db
    && (forall c :: c in last.cache ==> c.id != id)
  }

  predicate UnderWay(st: Store, id: string) {
    exists c :: c in st.creates && st.creates[c].id == id
  }

  /** Erasure is final. However gets, saves, other erasures and failures interleave with it, once the delete has been
    * applied the document is never back, and once the erasure has run its `finally` the cache never holds the id again,
    * whether the delete then returned or rejected. */
  lemma ErasureIsFinal(st: Store, e: nat, id: string, between: seq<Step>, later: seq<Step>)
    requires Inv(st) && e in st.erasures && Covers(st.erasures[e], id)
    requires !UnderWay(st, id) && MayCome(between, later, e, id)
    ensures StaysErased(st, e, id, between, later)
  {
    hide Next, After, Inv;
    var applied := Next(st, EraseIsApplied(e));
    AppliedIsGone(st, e, id);
    NextKeeps(st, EraseIsApplied(e));
    GoneThroughout(applied, between, id);
    CacheStaysOrdered(applied, between);
    ErasureWaits(applied, between, e);
    var held := After(applied, between);
    ErasingForgets(held, e, id);
    NextKeeps(held, EraseResumes(e));
    ForgottenThroughout(Next(held, EraseResumes(e)), later, id);
  }

  /** Exactly: an erasure is final in every interleaving that creates the id no more if and only if no create of it is
    * under way as the delete is applied. */
  lemma FinalExactlyWithNoCreateUnderWay(st: Store, e: nat, id: string)
    requires Inv(st) && e in st.erasures && Covers(st.erasures[e], id)
    ensures (forall between, later :: MayCome(between, later, e, id) ==> StaysErased(st, e, id, between, later))
            <==> !UnderWay(st, id)
  {
    if UnderWay(st, id) {
      var c :| c in st.creates && st.creates[c].id == id;
      var between, later := CreateOutlives(st, e, c, id);
      assert !StaysErased(st, e, id, between, later);
    } else {
      forall between, later | MayCome(between, later, e, id)
        ensures StaysErased(st, e, id, between, later)
      {
        ErasureIsFinal(st, e, id, between, later);
      }
    }
  }

  /** A create under way as the delete is applied: its document comes back, or its session is cached with none. */
  lemma CreateOutlives(st: Store, e: nat, c: nat, id: string) returns (between: seq<Step>, later: seq<Step>)
    requires Inv(st) && e in st.erasures && Covers(st.erasures[e], id)
    requires c in st.creates && st.creates[c].id == id
    ensures MayCome(between, later, e, id) && !StaysErased(st, e, id, between, later)
  {
    hide Next;
    if st.creates[c].applied {
      between, later := [], [CreateResumes(c)];
      OverlappingCreateIsRemembered(st, e, c, id);
      var applied := Next(st, EraseIsApplied(e));
      var forgotten := Next(applied, EraseResumes(e));
      AfterOne(forgotten, CreateResumes(c));
      assert After(applied, between) == applied;
      assert Cached(id, st.creates[c].session, st.now) in Next(forgotten, CreateResumes(c)).cache;
    } else {
      between, later := [CreateIsApplied(c)], [];
      LateCreateComesBack(st, e, c, id);
      AfterOne(Next(st, EraseIsApplied(e)), CreateIsApplied(c));
    }
  }

  lemma AfterOne(st: Store, step: Step)
    ensures After(st, [step]) == Next(st, step)
  {
    hide Next;
    assert [step][1..] == [];
  }

  lemma LateCreateComesBack(st: Store, e: nat, c: nat, id: string)
    requires e in st.erasures && c in st.creates && st.creates[c].id == id && !st.creates[c].applied
    ensures id in Next(Next(st, EraseIsApplied(e)), CreateIsApplied(c)).db
  {
  }

  /** A store begins sound, whatever documents it finds. */
  lemma NewStoreIsSound(db: map<string, Doc>, now: int, maxAge: int)
    ensures Inv(Store(db, [], map[], map[], map[], map[], map[], now, maxAge))
  {
    NothingIsOrdered(now);
  }

  lemma AppliedIsGone(st: Store, e: nat, id: string)
    requires e in st.erasures && Covers(st.erasures[e], id)
    requires forall c :: c in st.creates ==> st.creates[c].id != id
    ensures var applied := Next(st, EraseIsApplied(e));
            Gone(applied, id) && e in applied.erasures && applied.erasures[e] == st.erasures[e]
  {
  }

  /** The one race left, in every state it can arise in: a create whose write an erasure deletes, but which resumes
    * after that erasure has forgotten the id, caches a session that no longer has a document. */
  lemma OverlappingCreateIsRemembered(st: Store, e: nat, c: nat, id: string)
    requires Inv(st) && e in st.erasures && Covers(st.erasures[e], id)
    requires c in st.creates && st.creates[c].id == id && st.creates[c].applied
    ensures var applied := Next(st, EraseIsApplied(e));
            var forgotten := Next(applied, EraseResumes(e));
            var last := Next(forgotten, CreateResumes(c));
            && id !in last.db && (forall x :: x in forgotten.cache ==> x.id != id)
            && Find(last.cache, id) == Some(Cached(id, st.creates[c].session, st.now))
  {
    var applied := Next(st, EraseIsApplied(e));
    var forgotten := Next(applied, EraseResumes(e));
    NextKeeps(st, EraseIsApplied(e));
    NextKeeps(applied, EraseResumes(e));
    RememberKeepsOrder(forgotten.cache, id, st.creates[c].session, st.now, st.maxAge);
  }
}
