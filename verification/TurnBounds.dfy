/** How many entries keep their content after a turn, when the policy bounds it and redacts nothing.
  *
  * The run clears what is too old as it closes, and only then does the handler flush what its parser still
  * held. An entry that flush opens was not counted, so one entry more than the bound may keep its content.
  */
module TurnBounds {
  import opened Wrappers
  import opened ThinkingTags
  import opened SessionEntries
  import opened Frames
  import opened StreamingTurn
  import opened TurnTheorems
  import opened TurnMishaps
  import opened TurnQuestions

  function Keeping(n: nat): Policy {
    Policy(Some(n), None)
  }

  /** Everything older than the newest n is cleared. */
  predicate Bounded(entries: seq<Entry>, n: nat) {
    forall i :: 0 <= i < |entries| - n ==> entries[i].cleared
  }

  /** Text is still held as the stream ends, with no entry open to take it. */
  predicate FlushOpens(st: Stream) {
    st.buffer != "" && st.IndexOf(KindFor(st.inside)).None?
  }

  /** A step that clears and uncovers nothing. */
  predicate FlagsStay(st: Stream, next: Stream) {
    |st.entries| <= |next.entries| && forall i :: 0 <= i < |st.entries| ==>
      next.entries[i].cleared == st.entries[i].cleared
  }

  lemma SegmentKeepsFlags(n: nat, births: Births, st: Stream, kind: Kind, content: string)
    requires n >= 1
    ensures var next := StreamSegment(Keeping(n), births, st, kind, content);
            && FlagsStay(st, next)
            && |next.entries| == |st.entries| + if st.IndexOf(kind).None? then 1 else 0
  {
  }

  lemma CommitKeepsFlags(n: nat, st: Stream, kind: Kind)
    requires n >= 1
    ensures var next := CommitAndClear(Keeping(n), st, kind);
            && FlagsStay(st, next) && |next.entries| == |st.entries|
            && (kind.Thought? ==> next.IndexOf(Answer) == st.IndexOf(Answer))
  {
  }

  lemma CutOffKeepsFlags(n: nat, st: Stream, kind: Kind)
    requires n >= 1
    ensures var next := CloseCutOff(Keeping(n), st, kind);
            FlagsStay(st, next) && |next.entries| == |st.entries|
  {
  }

  lemma FlushKeepsFlags(n: nat, births: Births, st: Stream)
    requires n >= 1
    ensures var next := FlushHeldText(Keeping(n), births, st);
            && FlagsStay(st, next)
            && |next.entries| == |st.entries| + if FlushOpens(st) then 1 else 0
  {
    hide StreamSegment, CommitAndClear;
    FlushIsOneSegment(Keeping(n), births, st);
    if st.buffer != "" {
      var flushed := st.(buffer := "");
      if st.inside {
        SegmentKeepsFlags(n, births, flushed, Thought, st.buffer);
      } else {
        CommitKeepsFlags(n, flushed, Thought);
        SegmentKeepsFlags(n, births, CommitAndClear(Keeping(n), flushed, Thought), Answer, st.buffer);
      }
    }
  }

  lemma EndKeepsFlags(n: nat, births: Births, st: Stream)
    requires n >= 1
    ensures var next := CloseCutOff(Keeping(n), CloseCutOff(Keeping(n), FlushHeldText(Keeping(n), births, st), Thought),
            Answer);
            && FlagsStay(st, next)
            && |next.entries| == |st.entries| + if FlushOpens(st) then 1 else 0
  {
    hide FlushHeldText, CloseCutOff, FlushOpens;
    FlushKeepsFlags(n, births, st);
    var flushed := FlushHeldText(Keeping(n), births, st);
    CutOffKeepsFlags(n, flushed, Thought);
    CutOffKeepsFlags(n, CloseCutOff(Keeping(n), flushed, Thought), Answer);
  }

  /** The bound, exactly: as a turn ends, everything older than the newest n is cleared if and only if the held text
    * opened no entry of its own, or there are fewer than n others, or the oldest of the newest n was cleared before. */
  lemma BoundHoldsExactly(n: nat, births: Births, st: Stream)
    requires n >= 1
    ensures Bounded(EndTurn(Keeping(n), births, st).entries, n)
            <==> !FlushOpens(st) || |st.entries| < n || st.entries[|st.entries| - n].cleared
  {
    hide FlushHeldText, CloseCutOff;
    var closed := st.(entries := TurnClosed(Keeping(n), st.entries));
    var end := EndTurn(Keeping(n), births, st);
    EndKeepsFlags(n, births, closed);
    var count := |st.entries|;
    assert forall i :: 0 <= i < count ==> closed.entries[i].cleared == (i < count - n || st.entries[i].cleared);
    if FlushOpens(st) && count >= n {
      assert Bounded(end.entries, n) ==> end.entries[count - n].cleared;
    }
  }

  /** Whatever else, all but the newest n + 1 are cleared. */
  lemma AtMostOneMore(n: nat, births: Births, st: Stream)
    requires n >= 1
    ensures Bounded(EndTurn(Keeping(n), births, st).entries, n + 1)
  {
    hide FlushHeldText, CloseCutOff;
    var closed := st.(entries := TurnClosed(Keeping(n), st.entries));
    EndKeepsFlags(n, births, closed);
  }

  /** It happens: a bound of one, an answer cut off at its first angle bracket, and two entries keep their content. */
  lemma OneMoreKeepsItsContent(births: Births)
    ensures var end := Turn(Keeping(1), births, [], [], "q", [TextChunk("<")], None);
            !Bounded(end.entries, 1)
  {
    hide EndTurn, HandleSegments, Drain;
    var begun := BeginTurn(Keeping(1), births, [], [], "q");
    DrainBracket();
    TextFedAsOne(Keeping(1), births, begun, "<");
    var st := ProcessText(Keeping(1), births, begun, "<");
    NoSegments(Keeping(1), births, begun.(buffer := "<", inside := false));
    assert [TextChunk("<")][1..] == [];
    assert ProcessChunks(Keeping(1), births, begun, [TextChunk("<")]) == st;
    BoundHoldsExactly(1, births, st);
  }

  lemma NoSegments(policy: Policy, births: Births, st: Stream)
    requires Usable(policy)
    ensures HandleSegments(policy, births, st, []) == st
  {
  }
}
