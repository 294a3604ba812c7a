/** What every step of a turn keeps, with no entry policy.
  *
  * Per index: an entry still streaming is held by the client exactly as it is stored, or is
  * skipped; a closed one agrees with its replay unless it is one of the `off` indices; and its
  * life on the wire has come exactly as far as its state says. `late` marks the end of a turn,
  * where the run has already closed entries the handler still holds open.
  */
module TurnInvariant {
  import opened Wrappers
  import opened ThinkingTags
  import opened SessionEntries
  import opened Frames
  import opened StreamingTurn

  predicate IsOpenIndex(st: Stream, i: nat) {
    st.thinkingIndex == Some(i) || st.assistantIndex == Some(i)
  }

  predicate StreamingOk(st: Stream, i: nat)
    requires i < |st.entries|
  {
    var e := st.entries[i];
    && e.ModelEntry? && e.isStreaming && !e.truncated && !e.cleared && e.suppressed == st.suppressOutput
    && if st.suppressOutput then Seen(st.frames, i) == Skipped && Life(st.frames, i) == Hidden
       else Seen(st.frames, i) == Held(e) && Life(st.frames, i) == if e.content == "" then Opened else Flowing
  }

  /** Closed and flagged by the run's end, which the client has not been told yet. */
  predicate LaggingOk(st: Stream, i: nat)
    requires i < |st.entries|
  {
    var e := st.entries[i];
    && e.ModelEntry? && !e.isStreaming && e.truncated && !e.cleared && e.suppressed == st.suppressOutput
      && e.content != ""
    && if st.suppressOutput then Seen(st.frames, i) == Skipped && Life(st.frames, i) == Hidden
       else Seen(st.frames, i) == Held(e.(isStreaming := true, truncated := false)) && Life(st.frames, i) == Flowing
  }

  predicate AuthoredOk(st: Stream, off: set<nat>, i: nat)
    requires i < |st.entries|
  {
    var e := st.entries[i];
    && e.ModelEntry? && !e.cleared && e.content != ""
    && if e.suppressed then Life(st.frames, i) == Hidden || Life(st.frames, i) == Blanked
       else Life(st.frames, i) == Done && !st.suppressOutput && (i !in off ==> i in st.blankable)
  }

  predicate ClosedOk(st: Stream, off: set<nat>, i: nat)
    requires i < |st.entries|
  {
    var e := st.entries[i];
    && !IsOpen(e)
    && (i in off <==> !Faithful(Seen(st.frames, i), e))
    && (i in st.authored ==> AuthoredOk(st, off, i))
    && (i in st.blankable ==> i in st.authored && !e.suppressed)
  }

  predicate IndexOk(st: Stream, off: set<nat>, late: bool, i: nat)
    requires i < |st.entries|
  {
    if IsOpenIndex(st, i)
    then i in st.authored && i !in off && i !in st.blankable && (StreamingOk(st, i) || (late && LaggingOk(st, i)))
    else ClosedOk(st, off, i)
  }

  predicate Distinct(s: seq<nat>) {
    forall j, k :: 0 <= j < k < |s| ==> s[j] != s[k]
  }

  predicate InRange(st: Stream) {
    && (st.thinkingIndex.Some? ==> st.thinkingIndex.value < |st.entries|)
    && (st.assistantIndex.Some? ==> st.assistantIndex.value < |st.entries|)
    && (st.thinkingIndex.Some? ==> st.thinkingIndex != st.assistantIndex)
    && (forall i :: i in st.blankable ==> i < |st.entries|)
    && (forall i :: i in st.authored ==> i < |st.entries|)
  }

  ghost predicate NothingAhead(st: Stream) {
    forall i: nat :: i >= |st.entries| ==> Seen(st.frames, i) == Unseen && Life(st.frames, i) == Fresh
  }

  ghost predicate Inv(st: Stream, off: set<nat>, late: bool) {
    && InRange(st)
    && (forall i :: i in off ==> i < |st.entries|)
    && (!late ==> off !! st.authored)
    && Distinct(st.blankable)
    && (st.suppressOutput ==> st.blankable == [])
    && NothingAhead(st)
    && forall i: nat :: i < |st.entries| ==> IndexOk(st, off, late, i)
  }

  /** An entry the handler holds open has said something, so it can be committed. */
  predicate Speaks(st: Stream, kind: Kind)
    requires InRange(st)
  {
    st.IndexOf(kind).Some? ==> var e := st.entries[st.IndexOf(kind).value]; e.ModelEntry? && e.content != ""
  }

  predicate Spoken(st: Stream)
    requires InRange(st)
  {
    Speaks(st, Thought) && Speaks(st, Answer)
  }

  function Other(kind: Kind): Kind {
    if kind.Thought? then Answer else Thought
  }

  // ----- One frame, one index -----

  /** A frame is news at its own index and at no other. */
  lemma SentReaches(st: Stream, frame: Frame)
    ensures forall i: nat :: Seen(st.Sent(frame).frames, i) == Received(Seen(st.frames, i), frame, i)
    ensures forall i: nat :: Life(st.Sent(frame).frames, i) == Moved(Life(st.frames, i), frame, i)
  {
    forall i: nat
      ensures Seen(st.Sent(frame).frames, i) == Received(Seen(st.frames, i), frame, i)
      ensures Life(st.Sent(frame).frames, i) == Moved(Life(st.frames, i), frame, i)
    {
      SeenAfter(st.frames, frame, i);
      LifeAfter(st.frames, frame, i);
    }
  }

  /** The two streams look alike at index i. */
  ghost predicate SameAt(st: Stream, next: Stream, i: nat) {
    && i < |st.entries| && i < |next.entries| && next.entries[i] == st.entries[i]
    && Seen(next.frames, i) == Seen(st.frames, i) && Life(next.frames, i) == Life(st.frames, i)
    && next.suppressOutput == st.suppressOutput
    && IsOpenIndex(next, i) == IsOpenIndex(st, i)
    && (i in next.authored <==> i in st.authored)
    && (i in next.blankable <==> i in st.blankable)
  }

  lemma StaysOk(st: Stream, next: Stream, off: set<nat>, off': set<nat>, late: bool, i: nat)
    requires SameAt(st, next, i) && (i in off <==> i in off')
    ensures IndexOk(next, off', late, i) == IndexOk(st, off, late, i)
  {
  }

  /** A step that touches index k only need be checked there. */
  lemma OnlyAt(st: Stream, next: Stream, off: set<nat>, off': set<nat>, late: bool, k: nat)
    requires Inv(st, off, late)
    requires InRange(next) && Distinct(next.blankable) && (next.suppressOutput ==> next.blankable == [])
    requires NothingAhead(next)
    requires k < |next.entries| && (|next.entries| == |st.entries| || k == |st.entries| == |next.entries| - 1)
    requires off' == off + {k} || off' == off - {k} || off' == off
    requires !late ==> off' !! next.authored
    requires forall i: nat :: i < |next.entries| && i != k ==> SameAt(st, next, i)
    requires IndexOk(next, off', late, k)
    ensures Inv(next, off', late)
  {
    hide Seen, Life;
    forall i: nat | i < |next.entries|
      ensures IndexOk(next, off', late, i)
    {
      if i != k {
        StaysOk(st, next, off, off', late, i);
      }
    }
  }

  // ----- Opening, growing, committing -----

  lemma OpenEntryKeeps(births: Births, st: Stream, kind: Kind, off: set<nat>, late: bool)
    requires Inv(st, off, late) && st.IndexOf(kind).None?
    ensures Inv(OpenEntry(NO_POLICY, births, st, kind), off, late)
  {
    hide Seen, Life;
    var next := OpenEntry(NO_POLICY, births, st, kind);
    var k := |st.entries|;
    var frame := if st.suppressOutput then Skip(k) else Upsert(k, next.entries[k]);
    assert next.frames == st.Sent(frame).frames;
    SentReaches(st, frame);
    assert next.entries[..k] == st.entries;
    OnlyAt(st, next, off, off, late, k);
  }

  lemma GrowKeeps(st: Stream, kind: Kind, content: string, off: set<nat>, late: bool)
    requires Inv(st, off, late) && st.IndexOf(kind).Some? && content != ""
    ensures Inv(Grow(NO_POLICY, st, kind, content), off, late)
  {
    hide Seen, Life;
    var next := Grow(NO_POLICY, st, kind, content);
    var k := st.IndexOf(kind).value;
    assert IndexOk(st, off, late, k);
    if !st.suppressOutput {
      SentReaches(st, Delta(k, content));
      assert next.frames == st.Sent(Delta(k, content)).frames;
    }
    OnlyAt(st, next, off, off, late, k);
  }

  lemma GrowSpeaks(births: Births, st: Stream, kind: Kind, content: string)
    requires InRange(st) && st.IndexOf(kind).Some? && content != "" && Speaks(st, Other(kind))
    requires var e := st.entries[st.IndexOf(kind).value]; e.ModelEntry? && !e.cleared
    ensures var next := Grow(NO_POLICY, st, kind, content); InRange(next) && Spoken(next)
  {
    hide Seen, Life;
  }

  lemma StreamSegmentKeeps(births: Births, st: Stream, kind: Kind, content: string, off: set<nat>, late: bool)
    requires Inv(st, off, late) && Spoken(st) && content != ""
    ensures var next := StreamSegment(NO_POLICY, births, st, kind, content); Inv(next, off, late) && Spoken(next)
  {
    hide Seen, Life, Grow;
    var begun := if st.IndexOf(kind).Some? then st else OpenEntry(NO_POLICY, births, st, kind);
    if st.IndexOf(kind).None? {
      OpenEntryKeeps(births, st, kind, off, late);
      assert Speaks(begun, Other(kind));
    }
    assert IndexOk(begun, off, late, begun.IndexOf(kind).value);
    GrowKeeps(begun, kind, content, off, late);
    GrowSpeaks(births, begun, kind, content);
  }

  lemma CommitSpeaks(st: Stream, kind: Kind)
    requires InRange(st) && Spoken(st)
    ensures var next := CommitAndClear(NO_POLICY, st, kind);
            |next.entries| == |st.entries| && (InRange(next) ==> Spoken(next))
  {
    hide Distinct;
  }

  lemma CommitInRange(st: Stream, kind: Kind, off: set<nat>, late: bool, k: nat)
    requires Inv(st, off, late) && Spoken(st)
    requires st.IndexOf(kind) == Some(k)
    ensures var next := CommitAndClear(NO_POLICY, st, kind);
            && InRange(next) && Distinct(next.blankable) && (next.suppressOutput ==> next.blankable == [])
            && |next.entries| == |st.entries| && next.authored == st.authored && Spoken(next) && !IsOpenIndex(next, k)
            && (forall i: nat :: i != k ==> (i in next.blankable <==> i in st.blankable))
  {
    hide Seen, Life, StreamingOk, LaggingOk, ClosedOk, NothingAhead, Spoken, Speaks, Committed;
    CommitSpeaks(st, kind);
    assert IndexOk(st, off, late, k);
    var grown := st.blankable + [k];
    assert forall i :: i in grown <==> i in st.blankable || i == k;
    assert Distinct(grown);
  }

  /** Committing an entry leaves every other index alone. */
  lemma CommitElsewhere(st: Stream, kind: Kind, off: set<nat>, late: bool, k: nat)
    requires Inv(st, off, late) && Spoken(st)
    requires st.IndexOf(kind) == Some(k)
    ensures var next := CommitAndClear(NO_POLICY, st, kind);
            && InRange(next) && Distinct(next.blankable) && (next.suppressOutput ==> next.blankable == [])
            && |next.entries| == |st.entries| && next.authored == st.authored && Spoken(next) && !IsOpenIndex(next, k)
            && NothingAhead(next)
            && (forall i: nat :: i < |next.entries| && i != k ==> SameAt(st, next, i))
  {
    hide Seen, Life, StreamingOk, LaggingOk, ClosedOk;
    CommitInRange(st, kind, off, late, k);
    var next := CommitAndClear(NO_POLICY, st, kind);
    if !st.suppressOutput {
      SentReaches(st, Commit(k));
      assert next.frames == st.Sent(Commit(k)).frames;
    }
  }

  /** What is streaming, and has said something, commits to an entry its replay shows alike. */
  lemma CommitKeeps(st: Stream, kind: Kind, off: set<nat>, late: bool)
    requires Inv(st, off, late) && Spoken(st)
    requires st.IndexOf(kind).Some? ==> StreamingOk(st, st.IndexOf(kind).value)
    ensures var next := CommitAndClear(NO_POLICY, st, kind); Inv(next, off, late) && Spoken(next)
  {
    hide Seen, Life;
    var next := CommitAndClear(NO_POLICY, st, kind);
    if st.IndexOf(kind).Some? {
      var k := st.IndexOf(kind).value;
      CommitElsewhere(st, kind, off, late, k);
      assert IndexOk(st, off, late, k);
      if !st.suppressOutput {
        SentReaches(st, Commit(k));
        assert next.frames == st.Sent(Commit(k)).frames;
      }
      OnlyAt(st, next, off, off, late, k);
    }
  }

  /** A commit alone never tells the client that the run cut the entry short: unless it is hidden, it is then off. */
  lemma CommitLags(st: Stream, kind: Kind, off: set<nat>, k: nat)
    requires Inv(st, off, true) && Spoken(st)
    requires st.IndexOf(kind) == Some(k) && LaggingOk(st, k)
    ensures var next := CommitAndClear(NO_POLICY, st, kind);
            Inv(next, if st.suppressOutput then off else off + {k}, true) && Spoken(next)
  {
    hide Seen, Life;
    var next := CommitAndClear(NO_POLICY, st, kind);
    var off' := if st.suppressOutput then off else off + {k};
    CommitElsewhere(st, kind, off, true, k);
    assert IndexOk(st, off, true, k);
    if !st.suppressOutput {
      SentReaches(st, Commit(k));
      assert next.frames == st.Sent(Commit(k)).frames;
    }
    OnlyAt(st, next, off, off', true, k);
  }
}
