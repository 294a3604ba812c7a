/** What a session's entries keep through any writes, under any policy and redactor. */
module EntryHistory {
  import opened Wrappers
  import opened SessionEntries

  /** An entry of an unknown role is cut down to its role and time exactly when it carries no text of its own. */
  lemma ForeignClearedToRoleAndTime(entry: Entry)
    requires entry.ForeignEntry? && entry.payload != ""
    ensures Cleared(entry) == ForeignEntry(entry.role, None, "", entry.timestamp, true) <==> entry.text.None?
    ensures entry.text.Some? ==> Cleared(entry).payload == entry.payload
  {
  }

  /** Whatever a redactor does, no slot goes away and none changes its role. */
  lemma {:induction false} SlotsStay(policy: Policy, entries: seq<Entry>, writes: seq<Write>)
    requires Usable(policy)
    ensures var after := ApplyAll(policy, entries, writes);
            |entries| <= |after| && forall i :: 0 <= i < |entries| ==> RoleOf(after[i]) == RoleOf(entries[i])
    decreases |writes|
  {
    if writes != [] {
      var next := Apply(policy, entries, writes[0]);
      assert |entries| <= |next| && forall i :: 0 <= i < |entries| ==> RoleOf(next[i]) == RoleOf(entries[i]);
      SlotsStay(policy, next, writes[1..]);
    }
  }

  /** A cleared entry that is closed is out of every write's reach but the flag that it was cut short. */
  lemma {:induction false} ClearedStaysEmpty(policy: Policy, entries: seq<Entry>, writes: seq<Write>, i: nat)
    requires Usable(policy)
    requires i < |entries| && entries[i].cleared && !IsOpen(entries[i])
    ensures var after := ApplyAll(policy, entries, writes);
            i < |after| && (after[i] == entries[i] || after[i] == Truncated(entries[i]))
    decreases |writes|
  {
    if writes != [] {
      var next := Apply(policy, entries, writes[0]);
      assert i < |next| && (next[i] == entries[i] || next[i] == Truncated(entries[i]));
      ClearedStaysEmpty(policy, next, writes[1..], i);
    }
  }

  /** A redactor that leaves alone whether an entry is streaming and whether it is cleared. */
  ghost predicate KeepsFlags(policy: Policy) {
    policy.redactEntry.Some? ==>
      forall e: Entry :: var r := policy.redactEntry.value(e);
        r.Some? && RoleOf(r.value) == RoleOf(e) ==> r.value.cleared == e.cleared && IsOpen(r.value) == IsOpen(e)
  }

  /** How many of the newest entries a turn's end lets keep their content. */
  function ContentFrom(policy: Policy, entries: seq<Entry>): int {
    if policy.maxContentEntries.None? then 0 else |entries| - policy.maxContentEntries.value
  }

  /** After a turn nothing streams, and everything older than the bound is cleared and holds nothing. */
  lemma TurnEndsClosed(policy: Policy, entries: seq<Entry>)
    requires Usable(policy) && KeepsFlags(policy)
    ensures var after := TurnClosed(policy, entries);
            && |after| == |entries|
            && (forall i :: 0 <= i < |after| ==> !IsOpen(after[i]))
            && (forall i :: 0 <= i < |after| ==> RoleOf(after[i]) == RoleOf(entries[i]))
            && (forall i :: 0 <= i < |after| && i < ContentFrom(policy, entries) ==>
                  && after[i].cleared
                  && if entries[i].cleared then after[i] == CutShort(policy, entries[i]) else HoldsNothing(after[i]))
            && (forall i :: 0 <= i < |after| && i >= ContentFrom(policy, entries) ==>
              after[i] == CutShort(policy, entries[i]))
  {
    var closed := CloseOpen(policy, entries);
    forall i | 0 <= i < |closed|
      ensures !IsOpen(closed[i])
    {
      var e := entries[i];
      if IsOpen(e) {
        assert !IsOpen(e.(truncated := true, isStreaming := false));
      }
    }
  }

  /** The bound is met again at every later end of a turn, so ending one twice changes nothing. */
  lemma SecondCloseChangesNothing(policy: Policy, entries: seq<Entry>)
    requires Usable(policy) && KeepsFlags(policy)
    ensures TurnClosed(policy, TurnClosed(policy, entries)) == TurnClosed(policy, entries)
  {
    TurnEndsClosed(policy, entries);
    var after := TurnClosed(policy, entries);
    assert CloseOpen(policy, after) == after;
    assert ClearBeyond(policy, after) == after;
  }

  /** Flagged cleared only once it is closed and emptied. */
  predicate EmptyIfCleared(entry: Entry) {
    entry.cleared ==> HoldsNothing(entry) && !IsOpen(entry)
  }

  predicate AllEmptyIfCleared(entries: seq<Entry>) {
    forall i :: 0 <= i < |entries| ==> EmptyIfCleared(entries[i])
  }

  lemma WriteKeepsEmpty(policy: Policy, entries: seq<Entry>, write: Write)
    requires Usable(policy) && KeepsFlags(policy) && AllEmptyIfCleared(entries)
    requires write.Appends? ==> !write.entry.cleared
    ensures AllEmptyIfCleared(Apply(policy, entries, write))
  {
    var after := Apply(policy, entries, write);
    forall i | 0 <= i < |after|
      ensures EmptyIfCleared(after[i])
    {
      if i < |entries| {
        assert EmptyIfCleared(entries[i]);
      }
    }
  }

  /** So through any writes of entries that come unflagged, whatever is flagged cleared holds nothing: what a turn's end
    * leaves beyond the bound is cleared and empty. */
  lemma {:induction false} ClearedHoldsNothing(policy: Policy, entries: seq<Entry>, writes: seq<Write>)
    requires Usable(policy) && KeepsFlags(policy) && AllEmptyIfCleared(entries)
    requires forall w :: w in writes && w.Appends? ==> !w.entry.cleared
    ensures AllEmptyIfCleared(ApplyAll(policy, entries, writes))
    decreases |writes|
  {
    hide Apply, KeepsFlags, AllEmptyIfCleared;
    if writes != [] {
      assert writes[0] in writes;
      WriteKeepsEmpty(policy, entries, writes[0]);
      ClearedHoldsNothing(policy, Apply(policy, entries, writes[0]), writes[1..]);
    }
  }

  // ----- What is stored once an entry's content is final -----

  /** What a policy makes of an entry: a user's words and an unpoliced entry stay; otherwise what the redactor returns,
    * if that is an entry of the same role, and an emptied slot if it is not or the redactor threw. */
  predicate StoredFor(policy: Policy, draft: Entry, stored: Entry) {
    if draft.UserEntry? || policy.redactEntry.None? then stored == draft
    else match policy.redactEntry.value(draft)
      case Some(redacted) => stored == if RoleOf(redacted) == RoleOf(draft) then redacted else Cleared(draft)
      case None => stored == Cleared(draft)
  }

  /** A write that neither closes the entry at k nor flags it. */
  predicate LeavesOpen(write: Write, k: nat) {
    write != Truncates(k) && write != Commits(k) && write != Closes
  }

  /** All the text written to the entry at k, in order. */
  function AddedAt(writes: seq<Write>, k: nat): string {
    if writes == [] then ""
    else (if writes[0].Adds? && writes[0].index == k then writes[0].delta else "") + AddedAt(writes[1..], k)
  }

  lemma OneWriteMore(policy: Policy, entries: seq<Entry>, write: Write, k: nat)
    requires Usable(policy) && k < |entries| && IsOpen(entries[k]) && !entries[k].cleared && LeavesOpen(write, k)
    ensures var next := Apply(policy, entries, write);
            && k < |next|
            && next[k] == entries[k].(content := entries[k].content + AddedAt([write], k))
  {
    assert [write][1..] == [];
    assert AddedAt([], k) == "";
    var said := entries[k].content;
    assert said + "" == said;
    if write.Adds? {
      assert write.delta + "" == write.delta;
    }
  }

  lemma {:induction false} OpenEntryGrows(policy: Policy, entries: seq<Entry>, writes: seq<Write>, k: nat)
    requires Usable(policy) && k < |entries| && IsOpen(entries[k]) && !entries[k].cleared
    requires forall w :: w in writes ==> LeavesOpen(w, k)
    ensures var after := ApplyAll(policy, entries, writes);
            k < |after| && after[k] == entries[k].(content := entries[k].content + AddedAt(writes, k))
    decreases |writes|
  {
    hide Apply, LeavesOpen;
    var said := entries[k].content;
    if writes == [] {
      assert said + "" == said;
    } else {
      OneWriteMore(policy, entries, writes[0], k);
      assert [writes[0]][1..] == [];
      assert AddedAt([], k) == "";
      var next := Apply(policy, entries, writes[0]);
      OpenEntryGrows(policy, next, writes[1..], k);
      var first := if writes[0].Adds? && writes[0].index == k then writes[0].delta else "";
      assert first + "" == first;
      assert said + first + AddedAt(writes[1..], k) == said + (first + AddedAt(writes[1..], k));
    }
  }

  /** Nothing of the model's is redacted before it is whole: an entry that streams is stored as it is written, and once
    * it is committed, or its turn ends, as the policy makes it of all the text it was given. */
  lemma FinalContentIsRedacted(policy: Policy, entries: seq<Entry>, entry: Entry, writes: seq<Write>)
    requires Usable(policy) && IsOpen(entry) && !entry.cleared
    requires forall w :: w in writes ==> LeavesOpen(w, |entries|)
    ensures var k := |entries|;
            var open := ApplyAll(policy, Append(policy, entries, entry), writes);
            var whole := entry.(content := entry.content + AddedAt(writes, k));
            && k < |open| && open[k] == whole
            && StoredFor(policy, whole.(isStreaming := false), Apply(policy, open, Commits(k))[k])
            && StoredFor(policy, whole.(truncated := true, isStreaming := false), CloseOpen(policy, open)[k])
  {
    hide ApplyAll;
    OpenEntryGrows(policy, Append(policy, entries, entry), writes, |entries|);
  }

  /** An entry that comes whole is stored as the policy makes it. */
  lemma WholeEntryIsRedacted(policy: Policy, entries: seq<Entry>, entry: Entry)
    requires Usable(policy) && !IsOpen(entry)
    ensures var next := Append(policy, entries, entry);
            |next| == |entries| + 1 && next[..|entries|] == entries && StoredFor(policy, entry, next[|entries|])
  {
  }

  /** Text that reaches an entry already closed is redacted with it, again. */
  lemma LateTextIsRedacted(policy: Policy, entries: seq<Entry>, k: nat, delta: string)
    requires Usable(policy) && k < |entries| && entries[k].ModelEntry? && !IsOpen(entries[k]) && !entries[k].cleared
    ensures StoredFor(policy, entries[k].(content := entries[k].content + delta),
      Apply(policy, entries, Adds(k, delta))[k])
  {
  }
}
