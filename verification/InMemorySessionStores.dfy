/** The in-memory store: sessions in insertion order, swept from the front on every create.
  *
  * A session's creation stamp is `None` when the clock reading was unusable; such a session never
  * ages out. `ops` of a run are the store's own calls, each at a moment no earlier than the last.
  */
module InMemorySessionStores {
  import opened Wrappers
  import opened Sequences
  import Lists = SessionLists

  /** A held session: when it was created, and the stamps of its entries, `None` where unusable. */
  datatype Held = Held(sessionId: string, userId: int, createdAt: Option<int>, stamps: seq<Option<int>>)

  predicate HasExpired(held: Held, now: int, maxAge: int) {
    held.createdAt.Some? && now - held.createdAt.value > maxAge
  }

  /** A session expires once more than maxAge has gone by since it was created; one with no usable stamp never does. */
  lemma ExpiryIs(held: Held, now: int, maxAge: int)
    ensures HasExpired(held, now, maxAge) <==> exists at: int :: held.createdAt == Some(at) && at + maxAge < now
  {
    if HasExpired(held, now, maxAge) {
      assert held.createdAt == Some(held.createdAt.value);
    }
  }

  // ----- The sweep -----

  /** What the sweep leaves: everything from the first session that has not expired on. */
  function Swept(sessions: seq<Held>, now: int, maxAge: int): seq<Held> {
    if sessions == [] || !HasExpired(sessions[0], now, maxAge) then sessions else Swept(sessions[1..], now, maxAge)
  }

  function Unexpired(sessions: seq<Held>, now: int, maxAge: int): seq<Held> {
    if sessions == [] then []
    else (if HasExpired(sessions[0], now, maxAge) then [] else [sessions[0]]) + Unexpired(sessions[1..], now, maxAge)
  }

  /** Oldest first, among the sessions whose stamps can be compared at all. */
  predicate AgeOrdered(sessions: seq<Held>) {
    forall i, j :: 0 <= i < j < |sessions| && sessions[i].createdAt.Some? && sessions[j].createdAt.Some? ==>
      sessions[i].createdAt.value <= sessions[j].createdAt.value
  }

  predicate DistinctIds(sessions: seq<Held>) {
    forall i, j :: 0 <= i < j < |sessions| ==> sessions[i].sessionId != sessions[j].sessionId
  }

  /** A live session stands before an expired one. */
  predicate LiveBeforeExpired(sessions: seq<Held>, now: int, maxAge: int) {
    exists i, j ::
      0 <= i < j < |sessions| && !HasExpired(sessions[i], now, maxAge) && HasExpired(sessions[j], now, maxAge)
  }

  /** A session with no usable stamp stands before an expired one. */
  predicate Blocked(sessions: seq<Held>, now: int, maxAge: int) {
    exists i, j :: 0 <= i < j < |sessions| && sessions[i].createdAt.None? && HasExpired(sessions[j], now, maxAge)
  }

  lemma {:induction false} UnexpiredAll(sessions: seq<Held>, now: int, maxAge: int)
    ensures Unexpired(sessions, now, maxAge) == sessions
      <==> forall i :: 0 <= i < |sessions| ==> !HasExpired(sessions[i], now, maxAge)
    ensures |Unexpired(sessions, now, maxAge)| <= |sessions|
  {
    if sessions != [] {
      UnexpiredAll(sessions[1..], now, maxAge);
      if !HasExpired(sessions[0], now, maxAge) {
        assert sessions == [sessions[0]] + sessions[1..];
        assert Unexpired(sessions, now, maxAge)[1..] == Unexpired(sessions[1..], now, maxAge);
      }
    }
  }

  lemma FirstExpiredHidesNothing(sessions: seq<Held>, now: int, maxAge: int)
    requires sessions != [] && HasExpired(sessions[0], now, maxAge)
    ensures LiveBeforeExpired(sessions, now, maxAge) <==> LiveBeforeExpired(sessions[1..], now, maxAge)
  {
    hide HasExpired;
    var rest := sessions[1..];
    if i, j :|
      0 <= i < j < |sessions| && !HasExpired(sessions[i], now, maxAge) && HasExpired(sessions[j], now, maxAge) {
      assert rest[i - 1] == sessions[i] && rest[j - 1] == sessions[j];
    }
    if i, j :| 0 <= i < j < |rest| && !HasExpired(rest[i], now, maxAge) && HasExpired(rest[j], now, maxAge) {
      assert rest[i] == sessions[i + 1] && rest[j] == sessions[j + 1];
    }
  }

  lemma FirstLiveKeepsAll(sessions: seq<Held>, now: int, maxAge: int)
    requires sessions != [] && !HasExpired(sessions[0], now, maxAge)
    ensures Unexpired(sessions, now, maxAge) == sessions <==> !LiveBeforeExpired(sessions, now, maxAge)
  {
    hide HasExpired, Unexpired;
    UnexpiredAll(sessions, now, maxAge);
  }

  /** Stopping at the first live session drops every expired one and nothing else, exactly when no live one stands
    * before an expired one, in whatever order the sessions are held. */
  lemma {:induction false} SweepIsExact(sessions: seq<Held>, now: int, maxAge: int)
    ensures Swept(sessions, now, maxAge) == Unexpired(sessions, now, maxAge)
      <==> !LiveBeforeExpired(sessions, now, maxAge)
  {
    if sessions != [] {
      hide HasExpired, LiveBeforeExpired;
      if HasExpired(sessions[0], now, maxAge) {
        SweepIsExact(sessions[1..], now, maxAge);
        FirstExpiredHidesNothing(sessions, now, maxAge);
      } else {
        FirstLiveKeepsAll(sessions, now, maxAge);
      }
    }
  }

  /** So over sessions in age order: exactly when no unstamped one stands in the way. */
  lemma AgeOrderedSweepIsExact(sessions: seq<Held>, now: int, maxAge: int)
    requires AgeOrdered(sessions)
    ensures Swept(sessions, now, maxAge) == Unexpired(sessions, now, maxAge) <==> !Blocked(sessions, now, maxAge)
  {
    SweepIsExact(sessions, now, maxAge);
    if i, j :|
      0 <= i < j < |sessions| && !HasExpired(sessions[i], now, maxAge) && HasExpired(sessions[j], now, maxAge) {
      assert sessions[i].createdAt.None?;
    }
    if i, j :| 0 <= i < j < |sessions| && sessions[i].createdAt.None? && HasExpired(sessions[j], now, maxAge) {
      assert !HasExpired(sessions[i], now, maxAge);
    }
  }

  /** And where an id was created again in its old place p: exactly when nothing behind it ages out while it is live. */
  lemma ReusedIdSweepIsExact(sessions: seq<Held>, p: nat, held: Held, now: int, maxAge: int)
    requires AgeOrdered(sessions) && p < |sessions| && held.createdAt.Some?
    requires forall i :: 0 <= i < |sessions| ==>
      sessions[i].createdAt.Some? && sessions[i].createdAt.value <= held.createdAt.value
    ensures var after := sessions[p := held];
            Swept(after, now, maxAge) == Unexpired(after, now, maxAge)
            <==> HasExpired(held, now, maxAge) ||
                 (forall j :: p < j < |sessions| ==> !HasExpired(sessions[j], now, maxAge))
  {
    var after := sessions[p := held];
    SweepIsExact(after, now, maxAge);
    if !HasExpired(held, now, maxAge) {
      if j :| p < j < |sessions| && HasExpired(sessions[j], now, maxAge) {
        assert !HasExpired(after[p], now, maxAge) && HasExpired(after[j], now, maxAge);
      }
    }
    if i, j :| 0 <= i < j < |after| && !HasExpired(after[i], now, maxAge) && HasExpired(after[j], now, maxAge) {
      assert i == p;
    }
  }

  /** Nothing live is ever swept, whatever the order. */
  lemma {:induction false} SweepKeepsTheLiving(sessions: seq<Held>, now: int, maxAge: int, held: Held)
    requires held in sessions && !HasExpired(held, now, maxAge)
    ensures held in Swept(sessions, now, maxAge)
  {
    if HasExpired(sessions[0], now, maxAge) {
      SweepKeepsTheLiving(sessions[1..], now, maxAge, held);
    }
  }

  // ----- The insertion-ordered map -----

  function IndexOf(sessions: seq<Held>, id: string): (at: Option<nat>)
    ensures at.Some? ==> at.value < |sessions| && sessions[at.value].sessionId == id
    ensures at.None? ==> forall i :: 0 <= i < |sessions| ==> sessions[i].sessionId != id
  {
    if sessions == [] then None
    else if sessions[0].sessionId == id then Some(0)
    else
      var rest := IndexOf(sessions[1..], id);
      if rest.Some? then Some(rest.value + 1) else None
  }

  /** A key set again keeps its place. */
  function Put(sessions: seq<Held>, held: Held): seq<Held> {
    var at := IndexOf(sessions, held.sessionId);
    if at.Some? then sessions[at.value := held] else sessions + [held]
  }

  function Without(sessions: seq<Held>, id: string): seq<Held> {
    var at := IndexOf(sessions, id);
    if at.Some? then sessions[..at.value] + sessions[at.value + 1..] else sessions
  }

  lemma HeldIsAt(sessions: seq<Held>, held: Held)
    requires DistinctIds(sessions) && held in sessions
    ensures IndexOf(sessions, held.sessionId).Some?
    ensures sessions[IndexOf(sessions, held.sessionId).value] == held
  {
    hide IndexOf;
    var i :| 0 <= i < |sessions| && sessions[i] == held;
  }

  lemma WithoutAre(sessions: seq<Held>, id: string)
    requires DistinctIds(sessions)
    ensures forall held :: held in Without(sessions, id) <==> held in sessions && held.sessionId != id
  {
    hide IndexOf;
    var at := IndexOf(sessions, id);
    if at.Some? {
      var left := sessions[..at.value] + sessions[at.value + 1..];
      forall held
        ensures held in left <==> held in sessions && held.sessionId != id
      {
        DroppedOne(sessions, at.value, held);
      }
    }
  }

  lemma DroppedOne(sessions: seq<Held>, at: nat, held: Held)
    requires DistinctIds(sessions) && at < |sessions|
    ensures held in sessions[..at] + sessions[at + 1..]
            <==> held in sessions && held.sessionId != sessions[at].sessionId
  {
    var before, after := sessions[..at], sessions[at + 1..];
    assert sessions == before + [sessions[at]] + after;
    if held in before {
      var i :| 0 <= i < |before| && before[i] == held;
      assert sessions[i] == held;
    }
    if held in after {
      var i :| 0 <= i < |after| && after[i] == held;
      assert sessions[at + 1 + i] == held;
    }
  }

  lemma WithoutStaysSound(sessions: seq<Held>, id: string)
    requires DistinctIds(sessions)
    ensures DistinctIds(Without(sessions, id))
    ensures AgeOrdered(sessions) ==> AgeOrdered(Without(sessions, id))
  {
    hide IndexOf;
  }

  lemma PutAre(sessions: seq<Held>, put: Held)
    requires DistinctIds(sessions)
    ensures forall held :: held in Put(sessions, put) <==>
              if held.sessionId == put.sessionId then held == put else held in sessions
  {
    hide IndexOf;
    var at := IndexOf(sessions, put.sessionId);
    forall held
      ensures held in Put(sessions, put) <==> if held.sessionId == put.sessionId then held == put else held in sessions
    {
      if at.Some? {
        SetOne(sessions, at.value, put, held);
      }
    }
  }

  lemma SetOne(sessions: seq<Held>, at: nat, put: Held, held: Held)
    requires DistinctIds(sessions) && at < |sessions| && sessions[at].sessionId == put.sessionId
    ensures held in sessions[at := put] <==> if held.sessionId == put.sessionId then held == put else held in sessions
  {
    var next := sessions[at := put];
    assert next[at] == put;
    if held in next {
      var i :| 0 <= i < |next| && next[i] == held;
      assert i != at ==> sessions[i] == held;
    }
    if held in sessions && held.sessionId != put.sessionId {
      var i :| 0 <= i < |sessions| && sessions[i] == held;
      assert next[i] == held;
    }
  }

  lemma {:induction false} SweptIsATail(sessions: seq<Held>, now: int, maxAge: int) returns (k: nat)
    ensures k <= |sessions| && Swept(sessions, now, maxAge) == sessions[k..]
  {
    k := 0;
    if sessions != [] && HasExpired(sessions[0], now, maxAge) {
      var rest := SweptIsATail(sessions[1..], now, maxAge);
      k := rest + 1;
    }
  }

  // ----- Every run -----

  datatype Store = Store(sessions: seq<Held>, now: int, maxAge: int)

  datatype Op =
    | Ticks(span: nat)
    // Whether the clock gave the new session a usable stamp.
    | Creates(sessionId: string, userId: int, stamped: bool)
    | LooksUp(sessionId: string)
    | Deletes(sessionId: string)
    | Clears
    | Grows(sessionId: string, stamp: Option<int>)

  function Next(s: Store, op: Op): Store {
    match op
    case Ticks(span) => s.(now := s.now + span)
    case Creates(id, userId, stamped) =>
      s.(sessions := Put(Swept(s.sessions, s.now, s.maxAge),
        Held(id, userId, if stamped then Some(s.now) else None, [])))
    case LooksUp(id) =>
      var at := IndexOf(s.sessions, id);
      if at.Some? && HasExpired(s.sessions[at.value], s.now, s.maxAge) then s.(sessions := Without(s.sessions, id))
      else s
    case Deletes(id) => s.(sessions := Without(s.sessions, id))
    case Clears => s.(sessions := [])
    case Grows(id, stamp) =>
      var at := IndexOf(s.sessions, id);
      if at.None? then s
      else
        var held := s.sessions[at.value];
        s.(sessions := s.sessions[at.value := held.(stamps := held.stamps + [stamp])])
  }

  function After(s: Store, ops: seq<Op>): Store
    decreases |ops|
  {
    if ops == [] then s else After(Next(s, ops[0]), ops[1..])
  }

  /** Every create names an id no held session has. */
  predicate FreshIds(s: Store, ops: seq<Op>)
    decreases |ops|
  {
    ops == []
    || ((ops[0].Creates? ==> IndexOf(s.sessions, ops[0].sessionId).None?) && FreshIds(Next(s, ops[0]), ops[1..]))
  }

  predicate NoneFromTheFuture(s: Store) {
    forall i :: 0 <= i < |s.sessions| && s.sessions[i].createdAt.Some? ==> s.sessions[i].createdAt.value <= s.now
  }

  lemma HeldInTail(sessions: seq<Held>, k: nat, id: string)
    requires k <= |sessions|
    ensures IndexOf(sessions[k..], id).Some? ==> IndexOf(sessions, id).Some?
  {
    var at := IndexOf(sessions[k..], id);
    if at.Some? {
      assert sessions[k + at.value].sessionId == id;
    }
  }

  lemma CreateKeeps(s: Store, id: string, userId: int, stamped: bool)
    requires AgeOrdered(s.sessions) && NoneFromTheFuture(s) && IndexOf(s.sessions, id).None?
    ensures AgeOrdered(Next(s, Creates(id, userId, stamped)).sessions)
      && NoneFromTheFuture(Next(s, Creates(id, userId, stamped)))
  {
    var k := SweptIsATail(s.sessions, s.now, s.maxAge);
    var swept := s.sessions[k..];
    hide Swept, HasExpired;
    HeldInTail(s.sessions, k, id);
  }

  lemma NextKeeps(s: Store, op: Op)
    requires AgeOrdered(s.sessions) && NoneFromTheFuture(s) && (op.Creates? ==> IndexOf(s.sessions, op.sessionId).None?)
    ensures AgeOrdered(Next(s, op).sessions) && NoneFromTheFuture(Next(s, op))
  {
    if op.Creates? {
      CreateKeeps(s, op.sessionId, op.userId, op.stamped);
    } else {
      hide IndexOf, HasExpired;
    }
  }

  lemma {:induction false} AfterKeeps(s: Store, ops: seq<Op>)
    requires AgeOrdered(s.sessions) && NoneFromTheFuture(s) && FreshIds(s, ops)
    ensures AgeOrdered(After(s, ops).sessions) && NoneFromTheFuture(After(s, ops))
    decreases |ops|
  {
    hide AgeOrdered, NoneFromTheFuture, Next, IndexOf;
    if ops != [] {
      NextKeeps(s, ops[0]);
      AfterKeeps(Next(s, ops[0]), ops[1..]);
    }
  }

  /** After any run of fresh creates, a sweep at any later moment is exact unless an unstamped session stands before an
    * expired one. */
  lemma EverySweepIsExact(now: int, maxAge: int, ops: seq<Op>, later: nat)
    requires FreshIds(Store([], now, maxAge), ops)
    ensures var s := After(Store([], now, maxAge), ops);
            Swept(s.sessions, s.now + later, maxAge) == Unexpired(s.sessions, s.now + later, maxAge)
            <==> !Blocked(s.sessions, s.now + later, maxAge)
  {
    AfterKeeps(Store([], now, maxAge), ops);
    var s := After(Store([], now, maxAge), ops);
    AgeOrderedSweepIsExact(s.sessions, s.now + later, maxAge);
  }

  /** An id created again keeps its old place with a new stamp, and hides the expired session behind it from the
    * sweep. */
  lemma ReusedIdHidesTheAged()
    ensures var ops := [Creates("a", 1, true), Creates("b", 1, true), Ticks(8), Creates("a", 1, true), Ticks(8)];
            var s := After(Store([], 0, 10), ops);
            Swept(s.sessions, s.now, 10) != Unexpired(s.sessions, s.now, 10)
  {
    var s0 := Store([], 0, 10);
    var s1 := Next(s0, Creates("a", 1, true));
    assert s1.sessions == [Held("a", 1, Some(0), [])];
    var s2 := Next(s1, Creates("b", 1, true));
    assert s1.sessions[1..] == [];
    assert s2.sessions == [Held("a", 1, Some(0), []), Held("b", 1, Some(0), [])];
    var s3 := Next(s2, Ticks(8));
    var s4 := Next(s3, Creates("a", 1, true));
    assert s4.sessions == [Held("a", 1, Some(8), []), Held("b", 1, Some(0), [])];
    var s5 := Next(s4, Ticks(8));
    var ops := [Creates("a", 1, true), Creates("b", 1, true), Ticks(8), Creates("a", 1, true), Ticks(8)];
    assert After(s0, ops) == s5 by {
      assert ops[1..] == [Creates("b", 1, true), Ticks(8), Creates("a", 1, true), Ticks(8)];
      assert ops[1..][1..] == [Ticks(8), Creates("a", 1, true), Ticks(8)];
      assert ops[1..][1..][1..] == [Creates("a", 1, true), Ticks(8)];
      assert ops[1..][1..][1..][1..] == [Ticks(8)];
      assert ops[1..][1..][1..][1..][1..] == [];
    }
    SweepIsExact(s5.sessions, 16, 10);
    assert !HasExpired(s5.sessions[0], 16, 10) && HasExpired(s5.sessions[1], 16, 10);
  }

  // ----- Activity -----

  function Later(a: int, stamp: Option<int>): int {
    if stamp.Some? && stamp.value > a then stamp.value else a
  }

  function LatestFrom(stamps: seq<Option<int>>, latest: int): int
    decreases |stamps|
  {
    if stamps == [] then latest else LatestFrom(stamps[1..], Later(latest, stamps[0]))
  }

  /** The newest usable stamp, creation included, and 0 when there is none later. */
  function LastActivity(held: Held): int {
    LatestFrom([held.createdAt] + held.stamps, 0)
  }

  predicate IsNewestStamp(at: int, latest: int, stamps: seq<Option<int>>) {
    && latest <= at
    && (forall i :: 0 <= i < |stamps| && stamps[i].Some? ==> stamps[i].value <= at)
    && (at == latest || Some(at) in stamps)
  }

  lemma {:induction false} LatestIsTheNewest(stamps: seq<Option<int>>, latest: int)
    ensures IsNewestStamp(LatestFrom(stamps, latest), latest, stamps)
    decreases |stamps|
  {
    if stamps != [] {
      LatestIsTheNewest(stamps[1..], Later(latest, stamps[0]));
      assert stamps == [stamps[0]] + stamps[1..];
    }
  }

  /** What a session's row shows: its own id, and the newest of its creation and its entries' stamps that is usable and
    * not negative, or 0 when there is none. */
  lemma RowShowsActivity(held: Held)
    ensures SummaryOf(held).sessionId == held.sessionId
    ensures var at := SummaryOf(held).updatedAt;
            && at >= 0
            && (held.createdAt.Some? ==> held.createdAt.value <= at)
            && (forall i :: 0 <= i < |held.stamps| && held.stamps[i].Some? ==> held.stamps[i].value <= at)
            && (at == 0 || held.createdAt == Some(at) || Some(at) in held.stamps)
  {
    hide LatestFrom;
    var all := [held.createdAt] + held.stamps;
    LatestIsTheNewest(all, 0);
    assert all[0] == held.createdAt;
    assert forall i :: 0 <= i < |held.stamps| ==> all[i + 1] == held.stamps[i];
  }

  function SummaryOf(held: Held): Lists.Summary {
    Lists.Summary(held.sessionId, LastActivity(held))
  }

  // ----- What a user owns -----

  predicate Owns(userId: int, held: Held, now: int, maxAge: int) {
    held.userId == userId && !HasExpired(held, now, maxAge)
  }

  function OwnedBy(sessions: seq<Held>, userId: int, now: int, maxAge: int): (owned: seq<Held>)
    ensures |owned| <= |sessions|
  {
    if sessions == [] then []
    else
      (if Owns(userId, sessions[0], now, maxAge) then [sessions[0]] else [])
      + OwnedBy(sessions[1..], userId, now, maxAge)
  }

  function RowsOf(owned: seq<Held>): (rows: seq<Lists.Summary>)
    ensures |rows| == |owned| && forall i :: 0 <= i < |owned| ==> rows[i] == SummaryOf(owned[i])
  {
    seq(|owned|, i requires 0 <= i < |owned| => SummaryOf(owned[i]))
  }

  lemma {:induction false} OwnedAre(sessions: seq<Held>, userId: int, now: int, maxAge: int, held: Held)
    ensures held in OwnedBy(sessions, userId, now, maxAge) <==> held in sessions && Owns(userId, held, now, maxAge)
    ensures Owns(userId, held, now, maxAge)
            <==> held.userId == userId && (held.createdAt.Some? ==> now <= held.createdAt.value + maxAge)
  {
    if sessions != [] {
      OwnedAre(sessions[1..], userId, now, maxAge, held);
      assert sessions == [sessions[0]] + sessions[1..];
    }
  }

  lemma {:induction false} OwnedStayDistinct(sessions: seq<Held>, userId: int, now: int, maxAge: int)
    requires DistinctIds(sessions)
    ensures DistinctIds(OwnedBy(sessions, userId, now, maxAge))
  {
    hide HasExpired;
    if sessions != [] {
      var rest := OwnedBy(sessions[1..], userId, now, maxAge);
      OwnedStayDistinct(sessions[1..], userId, now, maxAge);
      forall i | 0 <= i < |rest|
        ensures rest[i].sessionId != sessions[0].sessionId
      {
        OwnedAre(sessions[1..], userId, now, maxAge, rest[i]);
      }
    }
  }

  /** The session no other of the user's comes before. */
  ghost predicate IsLatest(sessions: seq<Held>, userId: int, now: int, maxAge: int, latest: Held) {
    && latest in sessions && Owns(userId, latest, now, maxAge)
    && forall other :: other in sessions && Owns(userId, other, now, maxAge) && other.sessionId != latest.sessionId ==>
         Lists.Precedes(SummaryOf(latest), SummaryOf(other))
  }

  lemma HeadIsLatest(sessions: seq<Held>, userId: int, now: int, maxAge: int) returns (latest: Held)
    requires DistinctIds(sessions) && OwnedBy(sessions, userId, now, maxAge) != []
    ensures var sorted := Lists.Sort(RowsOf(OwnedBy(sessions, userId, now, maxAge)));
            sorted != [] && sorted[0] == SummaryOf(latest) && IsLatest(sessions, userId, now, maxAge, latest)
  {
    hide Lists.Sort, Lists.Precedes, OwnedBy, HasExpired, LastActivity;
    var owned := OwnedBy(sessions, userId, now, maxAge);
    var rows := RowsOf(owned);
    OwnedStayDistinct(sessions, userId, now, maxAge);
    assert Lists.DistinctIds(rows);
    Lists.SortSorts(rows);
    var sorted := Lists.Sort(rows);
    assert sorted[0] in multiset(rows);
    var i :| 0 <= i < |rows| && rows[i] == sorted[0];
    latest := owned[i];
    OwnedAre(sessions, userId, now, maxAge, latest);
    forall other | other in sessions && Owns(userId, other, now, maxAge) && other.sessionId != latest.sessionId
      ensures Lists.Precedes(SummaryOf(latest), SummaryOf(other))
    {
      OwnedAre(sessions, userId, now, maxAge, other);
      var j :| 0 <= j < |owned| && owned[j] == other;
      assert rows[j] in multiset(sorted);
      Lists.HeadIsFirst(sorted, rows[j]);
    }
  }

  lemma FirstIsNoOther(sessions: seq<Held>)
    requires sessions != [] && DistinctIds(sessions)
    ensures sessions[0] !in sessions[1..]
  {
  }

  lemma {:induction false} OwnedAreCounted(sessions: seq<Held>, userId: int, now: int, maxAge: int)
    requires DistinctIds(sessions)
    ensures |OwnedBy(sessions, userId, now, maxAge)| == |set held | held in sessions && Owns(userId, held, now, maxAge)|
  {
    hide Owns, HasExpired, OwnedBy;
    if sessions == [] {
      assert OwnedBy(sessions, userId, now, maxAge) == [] by { NobodyOwnsNothing(userId, now, maxAge); }
      assert (set held | held in sessions && Owns(userId, held, now, maxAge)) == {};
    } else {
      OwnedAreCounted(sessions[1..], userId, now, maxAge);
      FirstIsNoOther(sessions);
      OwnedUnfold(sessions, userId, now, maxAge);
      OneMoreOwned(sessions[0], sessions[1..], userId, now, maxAge);
      assert sessions == [sessions[0]] + sessions[1..];
    }
  }

  lemma NobodyOwnsNothing(userId: int, now: int, maxAge: int)
    ensures OwnedBy([], userId, now, maxAge) == []
  {
  }

  lemma OwnedUnfold(sessions: seq<Held>, userId: int, now: int, maxAge: int)
    requires sessions != []
    ensures |OwnedBy(sessions, userId, now, maxAge)|
         == (if Owns(userId, sessions[0], now, maxAge) then 1 else 0) + |OwnedBy(sessions[1..], userId, now, maxAge)|
  {
  }

  lemma OneMoreOwned(first: Held, rest: seq<Held>, userId: int, now: int, maxAge: int)
    requires first !in rest
    ensures |set held | held in [first] + rest && Owns(userId, held, now, maxAge)|
         == (if Owns(userId, first, now, maxAge) then 1 else 0)
            + |set held | held in rest && Owns(userId, held, now, maxAge)|
  {
    hide Owns;
    var others := set held | held in rest && Owns(userId, held, now, maxAge);
    assert (set held | held in [first] + rest && Owns(userId, held, now, maxAge))
        == others + if Owns(userId, first, now, maxAge) then {first} else {};
  }

  /** What the client pages through, what a resume rejoins and what is counted are one list. */
  lemma ListHeadAndCountAgree(sessions: seq<Held>, userId: int, now: int, maxAge: int, limit: Lists.Limit)
    requires DistinctIds(sessions) && Lists.CappedLimit(limit) > 0
    ensures var owned := OwnedBy(sessions, userId, now, maxAge);
            var rows := RowsOf(owned);
            var listed := Lists.Joined(Lists.Follow(rows, None, limit, |rows|));
            && listed == Lists.Sort(rows) && |listed| == |owned|
            && multiset(listed) == multiset(rows)
            && (owned != [] ==> listed != [] && Lists.ListFor(rows, None, limit) != []
                                && Lists.ListFor(rows, None, limit)[0] == listed[0])
  {
    var owned := OwnedBy(sessions, userId, now, maxAge);
    var rows := RowsOf(owned);
    OwnedStayDistinct(sessions, userId, now, maxAge);
    assert Lists.DistinctIds(rows);
    hide Lists.Follow, Lists.Joined, Lists.Sort, Lists.CappedLimit, OwnedBy;
    Lists.PagesAreTheWholeList(rows, limit, |rows|);
    Lists.SortSorts(rows);
  }

  // ----- The store -----

  class InMemorySessionStore {
    const maxAge: int
    var sessions: seq<Held>

    ghost predicate Valid()
      reads this
    {
      DistinctIds(sessions)
    }

    constructor (maxAge: int)
      ensures Valid() && sessions == [] && this.maxAge == maxAge
    {
      this.maxAge := maxAge;
      sessions := [];
    }

    method SweepExpired(now: int)
      requires Valid()
      modifies this
      ensures Valid() && sessions == Swept(old(sessions), now, maxAge)
      ensures exists k: nat :: k <= |old(sessions)| && sessions == old(sessions)[k..]
    {
      ghost var k := 0;
      while sessions != [] && HasExpired(sessions[0], now, maxAge)
        invariant k <= |old(sessions)| && sessions == old(sessions)[k..]
        invariant Swept(sessions, now, maxAge) == Swept(old(sessions), now, maxAge)
        decreases |sessions|
      {
        sessions := sessions[1..];
        k := k + 1;
      }
    }

    /** Sweeps, then holds the new session: last when its id is new, in the old place when it is not. */
    method Create(sessionId: string, userId: int, now: int, stamp: Option<int>)
      requires Valid() && (stamp.Some? ==> stamp.value == now)
      modifies this
      ensures Valid() && sessions == Put(Swept(old(sessions), now, maxAge), Held(sessionId, userId, stamp, []))
      ensures sessions == Next(Store(old(sessions), now, maxAge), Creates(sessionId, userId, stamp.Some?)).sessions
      ensures forall held :: held in sessions <==>
        if held.sessionId == sessionId then held == Held(sessionId, userId, stamp, [])
        else held in Swept(old(sessions), now, maxAge)
    {
      hide HasExpired, IndexOf, Swept;
      SweepExpired(now);
      PutAre(sessions, Held(sessionId, userId, stamp, []));
      var at := IndexOf(sessions, sessionId);
      var held := Held(sessionId, userId, stamp, []);
      sessions := if at.Some? then sessions[at.value := held] else sessions + [held];
    }

    /** Answers the session and leaves it, or drops it on the spot once it has aged out. */
    method Lookup(sessionId: string, now: int) returns (found: Option<Held>, expired: bool)
      requires Valid()
      modifies this
      ensures Valid()
      ensures var at := IndexOf(old(sessions), sessionId);
              if at.None? then found.None? && !expired && sessions == old(sessions)
              else if HasExpired(old(sessions)[at.value], now, maxAge)
              then found.None? && expired && sessions == Without(old(sessions), sessionId)
              else found == Some(old(sessions)[at.value]) && !expired && sessions == old(sessions)
      ensures sessions == Next(Store(old(sessions), now, maxAge), LooksUp(sessionId)).sessions
      ensures forall held :: held in sessions <==>
        held in old(sessions) && (held.sessionId == sessionId ==> !HasExpired(held, now, maxAge))
      ensures forall held :: held in old(sessions) && held.sessionId == sessionId ==>
        if HasExpired(held, now, maxAge) then found.None? && expired else found == Some(held) && !expired
      ensures (forall held :: held in old(sessions) ==> held.sessionId != sessionId) ==> found.None? && !expired
      ensures old(AgeOrdered(sessions)) ==> AgeOrdered(sessions)
    {
      hide HasExpired, IndexOf, DistinctIds;
      WithoutAre(sessions, sessionId);
      forall held | held in sessions && held.sessionId == sessionId
        ensures IndexOf(sessions, sessionId).Some? && sessions[IndexOf(sessions, sessionId).value] == held
      {
        HeldIsAt(sessions, held);
      }
      WithoutStaysSound(sessions, sessionId);
      var at := IndexOf(sessions, sessionId);
      if at.None? {
        return None, false;
      }
      if !HasExpired(sessions[at.value], now, maxAge) {
        return Some(sessions[at.value]), false;
      }
      sessions := sessions[..at.value] + sessions[at.value + 1..];
      return None, true;
    }

    method Delete(sessionId: string) returns (deleted: bool)
      requires Valid()
      modifies this
      ensures Valid() && sessions == Without(old(sessions), sessionId)
      ensures deleted <==> exists held :: held in old(sessions) && held.sessionId == sessionId
      ensures sessions == Next(Store(old(sessions), 0, maxAge), Deletes(sessionId)).sessions
      ensures forall held :: held in sessions <==> held in old(sessions) && held.sessionId != sessionId
      ensures old(AgeOrdered(sessions)) ==> AgeOrdered(sessions)
    {
      hide IndexOf, DistinctIds;
      WithoutAre(sessions, sessionId);
      WithoutStaysSound(sessions, sessionId);
      var at := IndexOf(sessions, sessionId);
      deleted := at.Some?;
      if deleted {
        sessions := sessions[..at.value] + sessions[at.value + 1..];
      }
    }

    method ListFor(userId: int, now: int, before: Option<Lists.Cursor>, limit: Lists.Limit)
        returns (page: seq<Lists.Summary>)
      requires Valid()
      ensures page == Lists.ListFor(RowsOf(OwnedBy(sessions, userId, now, maxAge)), before, limit)
    {
      if Lists.CappedLimit(limit) == 0 {
        return [];
      }
      var rows := Lists.Sort(RowsOf(OwnedBy(sessions, userId, now, maxAge)));
      page := Lists.FirstOf(Lists.After(rows, before), Lists.CappedLimit(limit));
    }

    /** The session a resume rejoins: the one the list shows first. */
    method LatestFor(userId: int, now: int) returns (latest: Option<string>)
      requires Valid()
      ensures latest.None? <==> forall held :: held in sessions ==> !Owns(userId, held, now, maxAge)
      ensures latest.Some? ==>
        exists held: Held :: held.sessionId == latest.value && IsLatest(sessions, userId, now, maxAge, held)
    {
      var owned := OwnedBy(sessions, userId, now, maxAge);
      forall held: Held
        ensures held in owned <==> held in sessions && Owns(userId, held, now, maxAge)
      {
        OwnedAre(sessions, userId, now, maxAge, held);
      }
      var rows := Lists.Sort(RowsOf(owned));
      if owned == [] {
        return None;
      }
      ghost var first := HeadIsLatest(sessions, userId, now, maxAge);
      assert owned[0] in owned;
      return Some(rows[0].sessionId);
    }

    method CountFor(userId: int, now: int) returns (count: nat)
      requires Valid()
      ensures count == |set held | held in sessions && Owns(userId, held, now, maxAge)|
    {
      OwnedAreCounted(sessions, userId, now, maxAge);
      count := |OwnedBy(sessions, userId, now, maxAge)|;
    }
  }
}
