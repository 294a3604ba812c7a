/** A user's conversations, newest activity first, a page at a time.
  *
  * The order is total over distinct ids, so a page that ends in the middle of a tie loses nothing:
  * `PagesAreTheWholeList` follows the last row of every page over a list that does not change.
  */
module SessionLists {
  import opened Wrappers
  import opened Sequences
  import opened StringOrders

  datatype Summary = Summary(sessionId: string, updatedAt: int)

  /** Any summary read as the place to go on from. */
  datatype Cursor = Cursor(updatedAt: int, sessionId: string)

  /** The comparator a sort is given: negative when the first comes first. */
  function NewestFirst(first: Summary, second: Summary): int {
    var gap := second.updatedAt - first.updatedAt;
    if gap != 0 then gap else if Less(first.sessionId, second.sessionId) then 1 else -1
  }

  predicate SitsAfter(summary: Summary, cursor: Cursor) {
    var gap := summary.updatedAt - cursor.updatedAt;
    gap < 0 || (gap == 0 && Less(summary.sessionId, cursor.sessionId))
  }

  predicate Precedes(first: Summary, second: Summary) {
    NewestFirst(first, second) < 0
  }

  function CursorOf(row: Summary): Cursor {
    Cursor(row.updatedAt, row.sessionId)
  }

  predicate DistinctIds(rows: seq<Summary>) {
    forall i, j :: 0 <= i < j < |rows| ==> rows[i].sessionId != rows[j].sessionId
  }

  lemma OrderIsTotal(a: Summary, b: Summary)
    requires a.sessionId != b.sessionId
    ensures Precedes(a, b) <==> !Precedes(b, a)
  {
    LessIsTotal(a.sessionId, b.sessionId);
    if Less(a.sessionId, b.sessionId) && Less(b.sessionId, a.sessionId) {
      LessIsTransitive(a.sessionId, b.sessionId, a.sessionId);
      LessIsStrict(a.sessionId);
    }
  }

  lemma OrderIsTransitive(a: Summary, b: Summary, c: Summary)
    requires Precedes(a, b) && Precedes(b, c)
    requires a.sessionId != b.sessionId && b.sessionId != c.sessionId && a.sessionId != c.sessionId
    ensures Precedes(a, c)
  {
    LessIsTotal(a.sessionId, b.sessionId);
    LessIsTotal(b.sessionId, c.sessionId);
    if Less(b.sessionId, a.sessionId) && Less(c.sessionId, b.sessionId) {
      LessIsTransitive(c.sessionId, b.sessionId, a.sessionId);
      OrderIsTotal(a, c);
      LessNotBoth(c.sessionId, a.sessionId);
    }
  }

  lemma LessNotBoth(a: string, b: string)
    ensures !(Less(a, b) && Less(b, a))
  {
    if Less(a, b) && Less(b, a) {
      LessIsTransitive(a, b, a);
      LessIsStrict(a);
    }
  }

  /** The cursor's test is the order itself: a row sits after another exactly when the sort would put it after. */
  lemma SitsAfterIsTheOrder(row: Summary, cursor: Summary)
    ensures row.sessionId != cursor.sessionId ==> (SitsAfter(row, CursorOf(cursor)) <==> Precedes(cursor, row))
    ensures !SitsAfter(row, CursorOf(row))
  {
    LessIsStrict(row.sessionId);
    LessIsTotal(row.sessionId, cursor.sessionId);
    LessNotBoth(row.sessionId, cursor.sessionId);
  }

  // ----- Sorting -----

  predicate Ordered(rows: seq<Summary>) {
    forall i, j :: 0 <= i < j < |rows| ==> Precedes(rows[i], rows[j])
  }

  function Insert(row: Summary, rows: seq<Summary>): seq<Summary> {
    if rows == [] || Precedes(row, rows[0]) then [row] + rows else [rows[0]] + Insert(row, rows[1..])
  }

  function Sort(rows: seq<Summary>): seq<Summary> {
    if rows == [] then [] else Insert(rows[0], Sort(rows[1..]))
  }

  lemma FirstAndRest(row: Summary, rest: seq<Summary>)
    requires Ordered(rest) && forall r :: r in rest ==> Precedes(row, r)
    ensures Ordered([row] + rest)
  {
    hide Precedes;
  }

  lemma {:induction false} InsertKeeps(row: Summary, rows: seq<Summary>)
    requires Ordered(rows) && DistinctIds(rows) && forall r :: r in rows ==> r.sessionId != row.sessionId
    ensures Ordered(Insert(row, rows)) && multiset(Insert(row, rows)) == multiset(rows) + multiset{row}
  {
    hide Precedes;
    if rows != [] {
      assert rows == [rows[0]] + rows[1..];
      if Precedes(row, rows[0]) {
        forall r | r in rows
          ensures Precedes(row, r)
        {
          if r != rows[0] {
            var j :| 0 <= j < |rows| && rows[j] == r;
            OrderIsTransitive(row, rows[0], r);
          }
        }
        FirstAndRest(row, rows);
      } else {
        OrderIsTotal(row, rows[0]);
        InsertKeeps(row, rows[1..]);
        var rest := Insert(row, rows[1..]);
        forall r | r in rest
          ensures Precedes(rows[0], r)
        {
          assert r in multiset(rest);
          assert r == row || r in rows[1..];
        }
        FirstAndRest(rows[0], rest);
      }
    }
  }

  /** A sort that follows the comparator, whichever it is: in order, and the same rows. */
  lemma {:induction false} SortSorts(rows: seq<Summary>)
    requires DistinctIds(rows)
    ensures Ordered(Sort(rows)) && multiset(Sort(rows)) == multiset(rows) && DistinctIds(Sort(rows))
      && |Sort(rows)| == |rows|
  {
    if rows != [] {
      SortSorts(rows[1..]);
      assert rows == [rows[0]] + rows[1..];
      forall r | r in Sort(rows[1..])
        ensures r.sessionId != rows[0].sessionId
      {
        assert r in multiset(rows[1..]);
      }
      InsertKeeps(rows[0], Sort(rows[1..]));
    }
    DistinctStays(rows, Sort(rows));
    assert |multiset(Sort(rows))| == |Sort(rows)| && |multiset(rows)| == |rows|;
  }

  lemma DistinctStays(rows: seq<Summary>, sorted: seq<Summary>)
    requires DistinctIds(rows) && Ordered(sorted) && multiset(sorted) == multiset(rows)
    ensures DistinctIds(sorted)
  {
    forall i, j | 0 <= i < j < |sorted|
      ensures sorted[i].sessionId != sorted[j].sessionId
    {
      assert sorted[i] in multiset(rows) && sorted[j] in multiset(rows);
      if sorted[i].sessionId == sorted[j].sessionId {
        assert sorted[i] == sorted[j];
        TwiceMeansTwice(sorted, i, j);
        OnceEach(rows, sorted[i]);
      }
    }
  }

  lemma TwiceMeansTwice(rows: seq<Summary>, i: int, j: int)
    requires 0 <= i < j < |rows| && rows[i] == rows[j]
    ensures multiset(rows)[rows[i]] >= 2
  {
    assert rows == rows[..j] + rows[j..];
    assert rows[..j][i] == rows[i] && rows[j..][0] == rows[j];
  }

  lemma {:induction false} OnceEach(rows: seq<Summary>, row: Summary)
    requires DistinctIds(rows)
    ensures multiset(rows)[row] <= 1
  {
    if rows != [] {
      OnceEach(rows[1..], row);
      assert rows == [rows[0]] + rows[1..];
      if row == rows[0] {
        assert row !in rows[1..];
      }
    }
  }

  lemma HeadIsFirst(rows: seq<Summary>, row: Summary)
    requires Ordered(rows) && row in multiset(rows)
    ensures rows != [] && (row == rows[0] || Precedes(rows[0], row))
  {
  }

  lemma HeadsAgree(a: seq<Summary>, b: seq<Summary>)
    requires a != [] && b != [] && DistinctIds(a) && Ordered(a) && Ordered(b) && multiset(a) == multiset(b)
    ensures a[0] == b[0]
  {
    assert b[0] in multiset(b) && a[0] in multiset(a);
    HeadIsFirst(a, b[0]);
    HeadIsFirst(b, a[0]);
    if a[0].sessionId != b[0].sessionId {
      OrderIsTotal(a[0], b[0]);
    } else {
      var j :| 0 <= j < |a| && a[j] == b[0];
      assert a[j].sessionId == a[0].sessionId;
    }
  }

  /** The order leaves a sort no choice: two orderings of the same rows are the same list. */
  lemma {:induction false} OrderDecides(a: seq<Summary>, b: seq<Summary>)
    requires DistinctIds(a) && Ordered(a) && Ordered(b) && multiset(a) == multiset(b)
    ensures a == b
  {
    hide DistinctIds, Ordered;
    assert |a| == |multiset(a)| && |multiset(b)| == |b|;
    if a != [] {
      HeadsAgree(a, b);
      assert a == [a[0]] + a[1..] && b == [b[0]] + b[1..];
      assert multiset(a[1..]) == multiset(a) - multiset{a[0]} && multiset(b[1..]) == multiset(b) - multiset{b[0]};
      TailKeeps(a);
      TailKeeps(b);
      OrderDecides(a[1..], b[1..]);
    }
  }

  lemma TailKeeps(rows: seq<Summary>)
    requires rows != []
    ensures DistinctIds(rows) ==> DistinctIds(rows[1..])
    ensures Ordered(rows) ==> Ordered(rows[1..])
  {
  }

  // ----- The window -----

  datatype Limit = Unset | NotFinite | Finite(value: real)

  const DEFAULT_LIMIT: nat := 50
  const MAX_LIMIT: nat := 200

  function CappedLimit(limit: Limit): nat {
    if !limit.Finite? || limit.value < 0.0 then DEFAULT_LIMIT
    else if limit.value.Floor < MAX_LIMIT then limit.value.Floor else MAX_LIMIT
  }

  /** Not an explicit 0 alone: any limit from 0 up to but not including 1 answers nothing. */
  lemma NothingIsAskedBelowOne(limit: Limit)
    ensures CappedLimit(limit) == 0 <==> limit.Finite? && 0.0 <= limit.value < 1.0
    ensures CappedLimit(limit) <= MAX_LIMIT
  {
  }

  /** A usable limit asks for the whole rows in it, up to 200; one that names no count asks for 50. */
  lemma LimitIs(limit: Limit, n: nat)
    ensures limit.Finite? && limit.value >= 0.0 ==> (n <= CappedLimit(limit) <==> n as real <= limit.value && n <= 200)
    ensures !limit.Finite? || limit.value < 0.0 ==> CappedLimit(limit) == 50
  {
  }

  function After(rows: seq<Summary>, before: Option<Cursor>): seq<Summary> {
    if before.None? || rows == [] then rows
    else (if SitsAfter(rows[0], before.value) then [rows[0]] else []) + After(rows[1..], before)
  }

  function FirstOf(rows: seq<Summary>, count: nat): seq<Summary> {
    if |rows| <= count then rows else rows[..count]
  }

  /** One page of a user's rows. */
  function ListFor(rows: seq<Summary>, before: Option<Cursor>, limit: Limit): seq<Summary> {
    FirstOf(After(Sort(rows), before), CappedLimit(limit))
  }

  /** A row a page may show: any at all, or one that is older than the cursor, or as old with a smaller id. */
  predicate MayFollow(before: Option<Cursor>, row: Summary) {
    before.Some? ==>
      || row.updatedAt < before.value.updatedAt
      || (row.updatedAt == before.value.updatedAt && Less(row.sessionId, before.value.sessionId))
  }

  lemma {:induction false} AfterKeeps(rows: seq<Summary>, before: Option<Cursor>)
    requires Ordered(rows)
    ensures var left := After(rows, before);
            && Ordered(left)
            && forall r :: r in left <==> r in rows && MayFollow(before, r)
  {
    hide Precedes, Less;
    if before.Some? && rows != [] {
      AfterKeeps(rows[1..], before);
      assert rows == [rows[0]] + rows[1..];
      var rest := After(rows[1..], before);
      if SitsAfter(rows[0], before.value) {
        FirstAndRest(rows[0], rest);
      } else {
        assert [] + rest == rest;
      }
    }
  }

  /** A page, whatever the cursor: the newest of the rows that may follow it, in order, as many as the limit asks for or
    * all there are. */
  lemma PageIsTheNewest(rows: seq<Summary>, before: Option<Cursor>, limit: Limit)
    requires DistinctIds(rows)
    ensures var page := ListFor(rows, before, limit);
            && Ordered(page) && |page| <= CappedLimit(limit)
            && (forall r :: r in page ==> r in rows && MayFollow(before, r))
            && (forall r :: r in rows && MayFollow(before, r) && r !in page ==>
                  |page| == CappedLimit(limit) && forall p :: p in page ==> Precedes(p, r))
  {
    hide CappedLimit, Sort, After, DistinctIds, MayFollow, Precedes;
    SortSorts(rows);
    var sorted := Sort(rows);
    forall r
      ensures r in sorted <==> r in rows
    {
      assert r in multiset(sorted) <==> r in multiset(rows);
    }
    AfterKeeps(sorted, before);
    var left := After(sorted, before);
    var count := CappedLimit(limit);
    var page := FirstOf(left, count);
    assert forall k :: 0 <= k < |page| ==> page[k] == left[k];
    forall r | r in left && r !in page
      ensures |page| == count && forall p :: p in page ==> Precedes(p, r)
    {
      var j :| 0 <= j < |left| && left[j] == r;
      assert j >= |page|;
    }
  }

  /** The cursor of a row leaves exactly the rows sorted behind it. */
  lemma {:induction false} AfterIsTheRest(sorted: seq<Summary>, k: nat, from: nat)
    requires Ordered(sorted) && DistinctIds(sorted) && k < |sorted| && from <= |sorted|
    ensures After(sorted[from..], Some(CursorOf(sorted[k]))) == sorted[if from <= k then k + 1 else from..]
    decreases |sorted| - from
  {
    if from < |sorted| {
      AfterIsTheRest(sorted, k, from + 1);
      assert sorted[from..][1..] == sorted[from + 1..];
      SitsAfterIsTheOrder(sorted[from], sorted[k]);
      if from < k {
        assert Precedes(sorted[from], sorted[k]);
        OrderIsTotal(sorted[from], sorted[k]);
      } else if from > k {
        assert Precedes(sorted[k], sorted[from]) && sorted[k].sessionId != sorted[from].sessionId;
      }
    }
  }

  /** The pages a client reads by naming the last row of each as the next one's cursor, to the first empty page or for
    * as many turns. */
  function Follow(rows: seq<Summary>, before: Option<Cursor>, limit: Limit, turns: nat): seq<seq<Summary>>
    decreases turns
  {
    var page := ListFor(rows, before, limit);
    if page == [] || turns == 0 then [] else [page] + Follow(rows, Some(CursorOf(page[|page| - 1])), limit, turns - 1)
  }

  function Joined(pages: seq<seq<Summary>>): seq<Summary> {
    if pages == [] then [] else pages[0] + Joined(pages[1..])
  }

  function CursorAt(sorted: seq<Summary>, k: nat): Option<Cursor>
    requires k <= |sorted|
  {
    if k == 0 then None else Some(CursorOf(sorted[k - 1]))
  }

  lemma PageIs(rows: seq<Summary>, k: nat, limit: Limit) returns (next: nat)
    requires k <= |Sort(rows)| && CappedLimit(limit) > 0 && Ordered(Sort(rows)) && DistinctIds(Sort(rows))
    ensures k <= next <= |Sort(rows)| && (k < |Sort(rows)| ==> k < next)
    ensures ListFor(rows, CursorAt(Sort(rows), k), limit) == Sort(rows)[k..next]
  {
    hide Sort, CappedLimit, Ordered, DistinctIds;
    var sorted := Sort(rows);
    assert sorted[0..] == sorted;
    if k > 0 {
      AfterIsTheRest(sorted, k - 1, 0);
    }
    next := if k + CappedLimit(limit) <= |sorted| then k + CappedLimit(limit) else |sorted|;
    assert After(sorted, CursorAt(sorted, k)) == sorted[k..];
    assert FirstOf(sorted[k..], CappedLimit(limit)) == sorted[k..next];
  }

  lemma {:induction false} FollowFrom(rows: seq<Summary>, k: nat, limit: Limit, turns: nat)
    requires k <= |Sort(rows)| && CappedLimit(limit) > 0 && turns >= |Sort(rows)| - k
    requires Ordered(Sort(rows)) && DistinctIds(Sort(rows))
    ensures Joined(Follow(rows, CursorAt(Sort(rows), k), limit, turns)) == Sort(rows)[k..]
    decreases |Sort(rows)| - k
  {
    hide Sort, CappedLimit, ListFor, Ordered, DistinctIds;
    var sorted := Sort(rows);
    var next := PageIs(rows, k, limit);
    if k < |sorted| {
      var page := sorted[k..next];
      assert page[|page| - 1] == sorted[next - 1];
      FollowFrom(rows, next, limit, turns - 1);
      var rest := Follow(rows, CursorAt(sorted, next), limit, turns - 1);
      assert ([page] + rest)[1..] == rest;
      assert sorted[k..next] + sorted[next..] == sorted[k..];
    }
  }

  /** Over a list that does not change, the pages one after another are the whole sorted list, each row once. */
  lemma PagesAreTheWholeList(rows: seq<Summary>, limit: Limit, turns: nat)
    requires DistinctIds(rows) && CappedLimit(limit) > 0 && turns >= |rows|
    ensures Joined(Follow(rows, None, limit, turns)) == Sort(rows)
    ensures Ordered(Sort(rows)) && multiset(Sort(rows)) == multiset(rows)
  {
    SortSorts(rows);
    FollowFrom(rows, 0, limit, turns);
    assert Sort(rows)[0..] == Sort(rows);
  }

  // ----- The same window as a query -----

  datatype Clause = UpdatedBefore(at: int) | UpdatedAt(at: int) | IdBelow(id: string)

  /** A filter in the database's own terms: any of several conjunctions, or everything. */
  datatype Filter = Everything | AnyOf(alternatives: seq<seq<Clause>>)

  predicate Holds(clause: Clause, row: Summary) {
    match clause
    case UpdatedBefore(at) => row.updatedAt < at
    case UpdatedAt(at) => row.updatedAt == at
    case IdBelow(id) => Less(row.sessionId, id)
  }

  predicate Matches(filter: Filter, row: Summary) {
    filter.Everything?
    || exists i :: 0 <= i < |filter.alternatives|
         && forall j :: 0 <= j < |filter.alternatives[i]| ==> Holds(filter.alternatives[i][j], row)
  }

  function OlderThan(before: Option<Cursor>): Filter {
    if before.None? then Everything
    else AnyOf([[UpdatedBefore(before.value.updatedAt)],
      [UpdatedAt(before.value.updatedAt), IdBelow(before.value.sessionId)]])
  }

  datatype Field = UpdatedAtField | IdField

  /** A sort specification's order: the first field that differs decides, greatest first. */
  predicate SortsBefore(spec: seq<Field>, a: Summary, b: Summary) {
    spec != []
    && match spec[0]
       case UpdatedAtField => b.updatedAt < a.updatedAt || (a.updatedAt == b.updatedAt && SortsBefore(spec[1..], a, b))
       case IdField => Less(b.sessionId, a.sessionId) || (a.sessionId == b.sessionId && SortsBefore(spec[1..], a, b))
  }

  lemma FilterIsTheCursor(before: Option<Cursor>, row: Summary)
    ensures Matches(OlderThan(before), row) <==> before.None? || SitsAfter(row, before.value)
  {
    if before.Some? {
      var at, id := before.value.updatedAt, before.value.sessionId;
      var alternatives := OlderThan(before).alternatives;
      assert alternatives[0] == [UpdatedBefore(at)] && alternatives[1] == [UpdatedAt(at), IdBelow(id)];
      hide Less;
      if SitsAfter(row, before.value) {
        var i := if row.updatedAt < at then 0 else 1;
        assert forall j :: 0 <= j < |alternatives[i]| ==> Holds(alternatives[i][j], row);
      }
      if i :| 0 <= i < |alternatives| && forall j :: 0 <= j < |alternatives[i]| ==> Holds(alternatives[i][j], row) {
        assert Holds(alternatives[i][0], row);
        if i == 1 {
          assert Holds(alternatives[1][1], row);
        }
      }
    }
  }

  lemma SortIsTheOrder(a: Summary, b: Summary)
    requires a.sessionId != b.sessionId
    ensures SortsBefore([UpdatedAtField, IdField], a, b) <==> Precedes(a, b)
  {
    assert [UpdatedAtField, IdField][1..] == [IdField];
    LessIsTotal(a.sessionId, b.sessionId);
    LessNotBoth(a.sessionId, b.sessionId);
    hide Less;
  }

  /** The query selects the rows the cursor leaves and sorts them as the list does. */
  lemma QueryIsTheWindow(before: Option<Cursor>, a: Summary, b: Summary)
    ensures Matches(OlderThan(before), a) <==> before.None? || SitsAfter(a, before.value)
    ensures a.sessionId != b.sessionId ==> (SortsBefore([UpdatedAtField, IdField], a, b) <==> Precedes(a, b))
  {
    hide Matches, SitsAfter, SortsBefore, Precedes;
    FilterIsTheCursor(before, a);
    if a.sessionId != b.sessionId {
      SortIsTheOrder(a, b);
    }
  }
}
