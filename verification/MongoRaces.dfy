/** The Mongo session store as a step system: gets, saves, creates and erasures in any interleaving.
  *
  * Every await is a point where other steps may come in. A read, a save and a create each ask,
  * are answered or applied by the collection, and then resume; an erasure's delete is applied
  * by the collection apart from the moment it returns, or is never applied, or rejects after it was.
  */
module MongoRaces {
  import opened Wrappers
  import opened MongoCache

  type Doc = int

  datatype Read = Read(id: string, answer: Option<Option<Doc>>)

  datatype Write = Write(id: string, session: nat, doc: Doc, applied: bool)

  datatype Target = These(ids: set<string>) | Everything

  datatype Store = Store(
    db: map<string, Doc>,
    cache: Cache,
    inFlightGets: map<nat, string>,
    waiting: map<nat, Read>,
    erasures: map<nat, Target>,
    saves: map<nat, Write>,
    creates: map<nat, Write>,
    now: int,
    maxAge: int)

  datatype Step =
    | Ticks(span: nat)
    | GetAsks(r: nat, id: string)
    | GetIsAnswered(r: nat)
    // The session object a found document becomes.
    | GetResumes(r: nat, session: nat)
    | GetFails(r: nat)
    | EraseAsks(e: nat, target: Target)
    | EraseIsApplied(e: nat)
    // Returned or rejected: either way its `finally` runs.
    | EraseResumes(e: nat)
    | SaveAsks(s: nat, id: string, session: nat, doc: Doc)
    | SaveIsApplied(s: nat)
    | SaveResumes(s: nat)
    | SaveFails(s: nat)
    | CreateAsks(c: nat, id: string, session: nat, doc: Doc)
    | CreateIsApplied(c: nat)
    | CreateResumes(c: nat)
    | CreateFails(c: nat)
    | Clears
    | ErasedElsewhere(id: string)

  predicate Covers(target: Target, id: string) {
    target.Everything? || id in target.ids
  }

  function MemoryOf(st: Store): Memory {
    Memory(st.cache, st.inFlightGets)
  }

  function WithMemory(st: Store, m: Memory): Store {
    st.(cache := m.cache, inFlightGets := m.inFlightGets)
  }

  function Forget(st: Store, target: Target): Store {
    match target
    case These(ids) => WithMemory(st, Forgetting(MemoryOf(st), ids))
    case Everything => WithMemory(st, Memory([], map[]))
  }

  function Deleted(db: map<string, Doc>, target: Target): map<string, Doc> {
    match target
    case These(ids) => map id | id in db && id !in ids :: db[id]
    case Everything => map[]
  }

  function Next(st: Store, step: Step): Store {
    match step
    case Ticks(span) => st.(now := st.now + span)
    case GetAsks(r, id) =>
      if r in st.waiting || r in st.inFlightGets || Young(st.cache, id, st.now, st.maxAge).Some? then st
      else WithMemory(st, Asking(MemoryOf(st), r, id, st.now, st.maxAge)).(waiting := st.waiting[r := Read(id, None)])
    case GetIsAnswered(r) =>
      if r in st.waiting && st.waiting[r].answer.None? then
        var id := st.waiting[r].id;
        st.(waiting := st.waiting[r := Read(id, Some(if id in st.db then Some(st.db[id]) else None))])
      else st
    case GetResumes(r, session) =>
      if r in st.waiting && st.waiting[r].answer.Some? then
        var found := if st.waiting[r].answer.value.Some? then Some(session) else None;
        WithMemory(st, Answered(MemoryOf(st), r, st.waiting[r].id, found, st.now, st.maxAge))
          .(waiting := st.waiting - {r})
      else st
    case GetFails(r) => st.(inFlightGets := st.inFlightGets - {r}, waiting := st.waiting - {r})
    case EraseAsks(e, target) => if e in st.erasures then st else st.(erasures := st.erasures[e := target])
    case EraseIsApplied(e) => if e in st.erasures then st.(db := Deleted(st.db, st.erasures[e])) else st
    case EraseResumes(e) =>
      if e in st.erasures then Forget(st, st.erasures[e]).(erasures := st.erasures - {e}) else st
    case SaveAsks(s, id, session, doc) =>
      if s in st.saves then st else st.(saves := st.saves[s := Write(id, session, doc, false)])
    case SaveIsApplied(s) =>
      if s in st.saves && !st.saves[s].applied then
        var w := st.saves[s];
        st.(db := if w.id in st.db then st.db[w.id := w.doc] else st.db, saves := st.saves[s := w.(applied := true)])
      else st
    case SaveResumes(s) =>
      if s in st.saves && st.saves[s].applied then
        var w := st.saves[s];
        WithMemory(st, Saved(MemoryOf(st), w.id, w.session)).(saves := st.saves - {s})
      else st
    case SaveFails(s) => st.(saves := st.saves - {s})
    case CreateAsks(c, id, session, doc) =>
      if c in st.creates then st else st.(creates := st.creates[c := Write(id, session, doc, false)])
    case CreateIsApplied(c) =>
      if c in st.creates && !st.creates[c].applied then
        var w := st.creates[c];
        st.(db := st.db[w.id := w.doc], creates := st.creates[c := w.(applied := true)])
      else st
    case CreateResumes(c) =>
      if c in st.creates && st.creates[c].applied then
        var w := st.creates[c];
        st.(cache := Remember(st.cache, w.id, w.session, st.now, st.maxAge), creates := st.creates - {c})
      else st
    case CreateFails(c) => st.(creates := st.creates - {c})
    case Clears => st.(cache := [])
    case ErasedElsewhere(id) => st.(db := Deleted(st.db, These({id})))
  }

  function After(st: Store, steps: seq<Step>): Store
    decreases |steps|
  {
    if steps == [] then st else After(Next(st, steps[0]), steps[1..])
  }

  // ----- What every step keeps -----

  /** A read not withdrawn is a read still waiting, on the id it asked for. */
  predicate ReadsWait(st: Store) {
    forall r :: r in st.inFlightGets ==> r in st.waiting && st.waiting[r].id == st.inFlightGets[r]
  }

  /** The cache is in age order and holds nothing from the future. */
  predicate CacheSound(st: Store) {
    Ordered(st.cache) && Past(st.cache, st.now)
  }

  predicate Inv(st: Store) {
    ReadsWait(st) && CacheSound(st)
  }

  lemma ReadsStillWait(st: Store, step: Step)
    requires ReadsWait(st)
    ensures ReadsWait(Next(st, step))
  {
    hide Remember, Without, DropAged, Find, Young, Deleted;
  }

  /** The steps that touch the cache, and what each makes of it. */
  function CacheAfter(st: Store, step: Step): Cache {
    match step
    case GetAsks(r, id) =>
      if r in st.waiting || r in st.inFlightGets || Young(st.cache, id, st.now, st.maxAge).Some? then st.cache
      else Asking(MemoryOf(st), r, id, st.now, st.maxAge).cache
    case GetResumes(r, session) =>
      if r in st.waiting && st.waiting[r].answer.Some? then
        var found := if st.waiting[r].answer.value.Some? then Some(session) else None;
        Answered(MemoryOf(st), r, st.waiting[r].id, found, st.now, st.maxAge).cache
      else st.cache
    case EraseResumes(e) =>
      if e !in st.erasures then st.cache
      else if st.erasures[e].Everything? then [] else Forgetting(MemoryOf(st), st.erasures[e].ids).cache
    case SaveResumes(s) =>
      if s in st.saves && st.saves[s].applied then Saved(MemoryOf(st), st.saves[s].id, st.saves[s].session).cache
      else st.cache
    case CreateResumes(c) =>
      if c in st.creates && st.creates[c].applied
      then Remember(st.cache, st.creates[c].id, st.creates[c].session, st.now, st.maxAge) else st.cache
    case Clears => []
    case _ => st.cache
  }

  lemma ReadTouchesCache(st: Store, r: nat, id: string, session: nat)
    ensures Next(st, GetAsks(r, id)).cache == CacheAfter(st, GetAsks(r, id))
    ensures Next(st, GetResumes(r, session)).cache == CacheAfter(st, GetResumes(r, session))
  {
    hide Remember, Asking, Answered, Young;
  }

  lemma WriteTouchesCache(st: Store, n: nat)
    ensures Next(st, EraseResumes(n)).cache == CacheAfter(st, EraseResumes(n))
    ensures Next(st, SaveResumes(n)).cache == CacheAfter(st, SaveResumes(n))
    ensures Next(st, CreateResumes(n)).cache == CacheAfter(st, CreateResumes(n))
  {
    hide Remember, Saved, Forgetting;
  }

  lemma OthersSpareCache(st: Store, step: Step)
    requires !step.GetAsks? && !step.GetResumes? && !step.EraseResumes? && !step.SaveResumes? && !step.CreateResumes?
    ensures Next(st, step).cache == CacheAfter(st, step)
  {
    hide Remember, Deleted, Answered, Saved, Asking, Young, Forgetting;
  }

  lemma CacheAfterIs(st: Store, step: Step)
    ensures Next(st, step).cache == CacheAfter(st, step)
  {
    hide Next, CacheAfter;
    match step
    case GetAsks(r, id) => ReadTouchesCache(st, r, id, 0);
    case GetResumes(r, session) => ReadTouchesCache(st, r, "", session);
    case EraseResumes(n) => WriteTouchesCache(st, n);
    case SaveResumes(n) => WriteTouchesCache(st, n);
    case CreateResumes(n) => WriteTouchesCache(st, n);
    case _ => OthersSpareCache(st, step);
  }

  lemma OnlyTicksTell(st: Store, step: Step)
    ensures Next(st, step).now == if step.Ticks? then st.now + step.span else st.now
  {
    hide Remember, Deleted, Answered, Saved, Asking, Young, Forgetting;
  }

  lemma CacheStaysSound(st: Store, step: Step)
    requires CacheSound(st)
    ensures CacheSound(Next(st, step))
  {
    hide Next, Remember, Without, DropAged, Find, HasAged, Ordered, Past;
    CacheAfterIs(st, step);
    OnlyTicksTell(st, step);
    NothingIsOrdered(st.now);
    match step
    case Ticks(span) => LaterIsPast(st.cache, st.now, st.now + span);
    case GetAsks(r, id) => WithoutStaysOrdered(st.cache, {id}, st.now);
    case GetResumes(r, session) =>
      if r in st.waiting {
        RememberKeepsOrder(st.cache, st.waiting[r].id, session, st.now, st.maxAge);
      }
    case EraseResumes(e) =>
      if e in st.erasures && st.erasures[e].These? {
        WithoutStaysOrdered(st.cache, st.erasures[e].ids, st.now);
      }
    case SaveResumes(s) =>
      if s in st.saves {
        WithoutStaysOrdered(st.cache, {st.saves[s].id}, st.now);
      }
    case CreateResumes(c) =>
      if c in st.creates {
        RememberKeepsOrder(st.cache, st.creates[c].id, st.creates[c].session, st.now, st.maxAge);
      }
    case _ =>
  }

  /** An id is in memory after a step only if it was before, or a read that found it and was not withdrawn came back, or
    * a create of it did. */
  lemma OnlyReadsAndCreatesCache(st: Store, step: Step, entry: Cached)
    requires Inv(st) && entry in Next(st, step).cache && entry !in st.cache
    ensures
      || (step.GetResumes? && step.r in st.inFlightGets && step.r in st.waiting && st.waiting[step.r].id == entry.id
          && st.waiting[step.r].answer.Some? && st.waiting[step.r].answer.value.Some?)
      || (step.CreateResumes? && step.c in st.creates && st.creates[step.c].applied
        && st.creates[step.c].id == entry.id)
  {
    hide Next, Remember, Without, DropAged, Find, HasAged, Ordered, Past, ReadsWait;
    CacheAfterIs(st, step);
    match step
    case GetResumes(r, session) =>
      if r in st.waiting {
        RememberIs(st.cache, st.waiting[r].id, session, st.now, st.maxAge);
      }
    case CreateResumes(c) =>
      if c in st.creates {
        RememberIs(st.cache, st.creates[c].id, st.creates[c].session, st.now, st.maxAge);
      }
    case _ =>
  }

  lemma NextKeeps(st: Store, step: Step)
    requires Inv(st)
    ensures Inv(Next(st, step))
  {
    hide ReadsWait, CacheSound, Next;
    ReadsStillWait(st, step);
    CacheStaysSound(st, step);
  }

  /** Every interleaving keeps the cache in age order, so each of its sweeps is exact. */
  lemma {:induction false} CacheStaysOrdered(st: Store, steps: seq<Step>)
    requires Inv(st)
    ensures Inv(After(st, steps))
    decreases |steps|
  {
    hide Next, Inv;
    if steps != [] {
      NextKeeps(st, steps[0]);
      CacheStaysOrdered(Next(st, steps[0]), steps[1..]);
    }
  }

  // ----- What becomes of one document -----

  /** The document an id has after a step: an erasure that covers it takes it, a save writes it where it is, a create
    * writes it wherever, and no other step touches it. */
  predicate Becomes(st: Store, step: Step, id: string, next: map<string, Doc>) {
    var same := (id in next <==> id in st.db) && (id in st.db ==> next[id] == st.db[id]);
    match step
    case EraseIsApplied(e) =>
      if e in st.erasures && (st.erasures[e].Everything? || id in st.erasures[e].ids) then id !in next else same
    case ErasedElsewhere(erased) => if erased == id then id !in next else same
    case SaveIsApplied(s) =>
      if s in st.saves && !st.saves[s].applied && st.saves[s].id == id && id in st.db
      then id in next && next[id] == st.saves[s].doc else same
    case CreateIsApplied(c) =>
      if c in st.creates && !st.creates[c].applied && st.creates[c].id == id
      then id in next && next[id] == st.creates[c].doc else same
    case _ => same
  }

  lemma OnlyWritesChange(st: Store, step: Step, id: string)
    ensures Becomes(st, step, id, Next(st, step).db)
  {
    hide Remember, Without, Find, Forgetting, Asking, Answered, Saved, Young;
  }

  /** A step that neither applies this save nor ends it. */
  predicate LeavesSave(step: Step, s: nat) {
    step != SaveIsApplied(s) && step != SaveResumes(s) && step != SaveFails(s)
  }

  predicate LeavesCreate(step: Step, c: nat) {
    step != CreateIsApplied(c) && step != CreateResumes(c) && step != CreateFails(c)
  }

  lemma StepLeavesSave(st: Store, s: nat, step: Step)
    requires s in st.saves && LeavesSave(step, s)
    ensures s in Next(st, step).saves && Next(st, step).saves[s] == st.saves[s]
  {
    hide Remember, Without, Find, Forgetting, Asking, Answered, Saved, Young, Deleted;
  }

  lemma {:induction false} SaveIsPending(st: Store, s: nat, steps: seq<Step>)
    requires s in st.saves && forall step :: step in steps ==> LeavesSave(step, s)
    ensures s in After(st, steps).saves && After(st, steps).saves[s] == st.saves[s]
    decreases |steps|
  {
    hide Next, LeavesSave;
    if steps != [] {
      StepLeavesSave(st, s, steps[0]);
      SaveIsPending(Next(st, steps[0]), s, steps[1..]);
    }
  }

  lemma StepLeavesCreate(st: Store, c: nat, step: Step)
    requires c in st.creates && LeavesCreate(step, c)
    ensures c in Next(st, step).creates && Next(st, step).creates[c] == st.creates[c]
  {
    hide Remember, Without, Find, Forgetting, Asking, Answered, Saved, Young, Deleted;
  }

  lemma {:induction false} CreateIsPending(st: Store, c: nat, steps: seq<Step>)
    requires c in st.creates && forall step :: step in steps ==> LeavesCreate(step, c)
    ensures c in After(st, steps).creates && After(st, steps).creates[c] == st.creates[c]
    decreases |steps|
  {
    hide Next, LeavesCreate;
    if steps != [] {
      StepLeavesCreate(st, c, steps[0]);
      CreateIsPending(Next(st, steps[0]), c, steps[1..]);
    }
  }

  predicate LeavesRead(step: Step, r: nat) {
    step != GetIsAnswered(r) && step != GetResumes(r, if step.GetResumes? then step.session else 0)
      && step != GetFails(r)
  }

  lemma StepLeavesRead(st: Store, r: nat, step: Step)
    requires r in st.waiting && LeavesRead(step, r)
    ensures r in Next(st, step).waiting && Next(st, step).waiting[r] == st.waiting[r]
  {
    hide Remember, Without, Find, Forgetting, Asking, Answered, Saved, Young, Deleted;
  }

  lemma {:induction false} ReadIsPending(st: Store, r: nat, steps: seq<Step>)
    requires r in st.waiting && forall step :: step in steps ==> LeavesRead(step, r)
    ensures r in After(st, steps).waiting && After(st, steps).waiting[r] == st.waiting[r]
    decreases |steps|
  {
    hide Next, LeavesRead;
    if steps != [] {
      StepLeavesRead(st, r, steps[0]);
      ReadIsPending(Next(st, steps[0]), r, steps[1..]);
    }
  }

  /** A get that memory cannot answer is answered with the document its id has when the collection is read, whatever
    * came between, or with none, and takes that answer with it however long it then waits. */
  lemma GetSeesTheDocument(st: Store, r: nat, id: string, between: seq<Step>, later: seq<Step>)
    requires r !in st.waiting && r !in st.inFlightGets && Young(st.cache, id, st.now, st.maxAge).None?
    requires forall step :: step in between + later ==> LeavesRead(step, r)
    ensures var held := After(Next(st, GetAsks(r, id)), between);
            var waiting := After(Next(held, GetIsAnswered(r)), later).waiting;
            r in waiting && waiting[r] == Read(id, Some(if id in held.db then Some(held.db[id]) else None))
  {
    var asked := Next(st, GetAsks(r, id));
    ReadIsPending(asked, r, between);
    var answered := Next(After(asked, between), GetIsAnswered(r));
    assert r in answered.waiting;
    ReadIsPending(answered, r, later);
  }

  /** A save stores the document it was asked with, whatever came between, if its id still has one then, and otherwise
    * nothing; as it comes back, memory is left with no other object for that id. */
  lemma SaveStoresItsDocument(st: Store, s: nat, id: string, session: nat, doc: Doc, between: seq<Step>)
    requires s !in st.saves && forall step :: step in between ==> LeavesSave(step, s)
    ensures var held := After(Next(st, SaveAsks(s, id, session, doc)), between);
            var applied := Next(held, SaveIsApplied(s));
            && applied.db == (if id in held.db then held.db[id := doc] else held.db)
            && MemoryOf(Next(applied, SaveResumes(s))) == Saved(MemoryOf(held), id, session)
  {
    var asked := Next(st, SaveAsks(s, id, session, doc));
    SaveIsPending(asked, s, between);
  }

  /** A create stores its document whatever came between, over any there is, and as it comes back its session is
    * cached. */
  lemma CreateStoresItsDocument(st: Store, c: nat, id: string, session: nat, doc: Doc, between: seq<Step>)
    requires c !in st.creates && forall step :: step in between ==> LeavesCreate(step, c)
    ensures var held := After(Next(st, CreateAsks(c, id, session, doc)), between);
            var applied := Next(held, CreateIsApplied(c));
            && applied.db == held.db[id := doc]
            && Next(applied, CreateResumes(c)).cache == Remember(held.cache, id, session, held.now, held.maxAge)
  {
    var asked := Next(st, CreateAsks(c, id, session, doc));
    CreateIsPending(asked, c, between);
  }
}
