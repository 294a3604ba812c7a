/** What a turn does with the user's message, and with everything that was there before it, under any entry policy. */
module TurnQuestions {
  import opened Wrappers
  import opened ThinkingTags
  import opened SessionEntries
  import opened Frames
  import opened StreamingTurn
  import opened TurnTheorems

  /** The stream has these entries and frames at its front, and nothing the handler may still write points into them. */
  predicate Begins(st: Stream, entries: seq<Entry>, frames: seq<Frame>) {
    && entries <= st.entries && frames <= st.frames
    && (st.thinkingIndex.Some? ==> |entries| <= st.thinkingIndex.value)
    && (st.assistantIndex.Some? ==> |entries| <= st.assistantIndex.value)
    && forall i :: i in st.blankable ==> |entries| <= i
  }

  // ----- Every step -----

  lemma OpenSpares(policy: Policy, births: Births, st: Stream, kind: Kind, entries: seq<Entry>, frames: seq<Frame>)
    requires Usable(policy) && Begins(st, entries, frames)
    ensures Begins(OpenEntry(policy, births, st, kind), entries, frames)
  {
  }

  lemma GrowSpares(policy: Policy, st: Stream, kind: Kind, content: string, entries: seq<Entry>, frames: seq<Frame>)
    requires Usable(policy) && Begins(st, entries, frames) && st.IndexOf(kind).Some?
    ensures Begins(Grow(policy, st, kind, content), entries, frames)
  {
  }

  lemma CommitSpares(policy: Policy, st: Stream, kind: Kind, entries: seq<Entry>, frames: seq<Frame>)
    requires Usable(policy) && Begins(st, entries, frames)
    ensures Begins(CommitAndClear(policy, st, kind), entries, frames)
  {
  }

  lemma SegmentSpares(policy: Policy, births: Births, st: Stream, kind: Kind, content: string, entries: seq<Entry>,
      frames: seq<Frame>)
    requires Usable(policy) && Begins(st, entries, frames)
    ensures Begins(StreamSegment(policy, births, st, kind, content), entries, frames)
  {
    hide Begins;
    OpenSpares(policy, births, st, kind, entries, frames);
    GrowSpares(policy, if st.IndexOf(kind).Some? then st else OpenEntry(policy, births, st, kind), kind, content,
               entries, frames);
  }

  lemma HandleSegmentSpares(policy: Policy, births: Births, st: Stream, segment: Segment, entries: seq<Entry>,
      frames: seq<Frame>)
    requires Usable(policy) && Begins(st, entries, frames)
    ensures Begins(HandleSegment(policy, births, st, segment), entries, frames)
  {
    hide Begins;
    CommitSpares(policy, st, Thought, entries, frames);
    if segment.kind.Thought? {
      SegmentSpares(policy, births, st, Thought, segment.content, entries, frames);
    } else {
      SegmentSpares(policy, births, CommitAndClear(policy, st, Thought), Answer, segment.content, entries, frames);
    }
  }

  lemma {:induction false} HandleSegmentsSpare(policy: Policy, births: Births, st: Stream, segments: seq<Segment>,
      entries: seq<Entry>, frames: seq<Frame>)
    requires Usable(policy) && Begins(st, entries, frames)
    ensures Begins(HandleSegments(policy, births, st, segments), entries, frames)
    decreases |segments|
  {
    hide Begins, HandleSegment;
    if segments != [] {
      HandleSegmentSpares(policy, births, st, segments[0], entries, frames);
      HandleSegmentsSpare(policy, births, HandleSegment(policy, births, st, segments[0]), segments[1..], entries,
        frames);
    }
  }

  lemma FlushSpares(policy: Policy, births: Births, st: Stream, entries: seq<Entry>, frames: seq<Frame>)
    requires Usable(policy) && Begins(st, entries, frames)
    ensures Begins(FlushHeldText(policy, births, st), entries, frames)
  {
    HandleSegmentsSpare(policy, births, st.(buffer := ""), Emitted(KindFor(st.inside), st.buffer), entries, frames);
  }

  lemma CommitOpenSpares(policy: Policy, st: Stream, entries: seq<Entry>, frames: seq<Frame>)
    requires Usable(policy) && Begins(st, entries, frames)
    ensures Begins(CommitOpenEntries(policy, st), entries, frames)
  {
    hide Begins, CommitAndClear;
    CommitSpares(policy, st, Thought, entries, frames);
    CommitSpares(policy, CommitAndClear(policy, st, Thought), Answer, entries, frames);
  }

  lemma {:induction false} BlankAllSpares(st: Stream, entries: seq<Entry>, frames: seq<Frame>)
    requires Begins(st, entries, frames)
    ensures Begins(BlankAll(st), entries, frames)
    decreases |st.blankable|
  {
    if st.blankable != [] {
      assert st.blankable[0] in st.blankable;
      assert forall i :: i in st.blankable[1..] ==> i in st.blankable;
      BlankAllSpares(BlankFirst(st), entries, frames);
    }
  }

  lemma {:induction false} StoreSpares(policy: Policy, stored: seq<Entry>, supplied: seq<Entry>)
    requires Usable(policy)
    ensures stored <= StoreSupplied(policy, stored, supplied)
    decreases |supplied|
  {
    if supplied != [] {
      StoreSpares(policy, Append(policy, stored, supplied[0]), supplied[1..]);
    }
  }

  lemma {:induction false} ForwardSpares(st: Stream, from: nat)
    requires from <= |st.entries|
    ensures st.frames <= ForwardFrom(st, from).frames
    decreases |st.entries| - from
  {
    if from < |st.entries| {
      ForwardSpares(st.Sent(Upsert(from, st.entries[from])), from + 1);
    }
  }

  lemma ToolResultSpares(policy: Policy, st: Stream, supplied: seq<Entry>, entries: seq<Entry>, frames: seq<Frame>)
    requires Usable(policy) && Begins(st, entries, frames)
    ensures Begins(ProcessToolResult(policy, st, supplied), entries, frames)
  {
    StoreSpares(policy, st.entries, supplied);
    StoringAppends(policy, st.entries, supplied);
    var stored := st.(entries := StoreSupplied(policy, st.entries, supplied));
    ForwardSpares(stored, |st.entries|);
    ForwardLeaves(stored, |st.entries|);
  }

  lemma ChunkSpares(policy: Policy, births: Births, st: Stream, chunk: Chunk, entries: seq<Entry>, frames: seq<Frame>)
    requires Usable(policy) && Begins(st, entries, frames)
    ensures Begins(ProcessChunk(policy, births, st, chunk), entries, frames)
  {
    hide HandleSegments, CommitOpenEntries, FlushHeldText, BlankAll, ProcessToolResult, Drain;
    match chunk
    case TextChunk(text) =>
      var d := Drain(st.buffer + text, st.inside);
      HandleSegmentsSpare(policy, births, st.(buffer := d.buffer, inside := d.inside), d.segments, entries, frames);
    case ToolUse(name, input) =>
    case ToolResult(supplied) => ToolResultSpares(policy, st, supplied, entries, frames);
    case SuppressOutput =>
      CommitOpenSpares(policy, st, entries, frames);
      BlankAllSpares(CommitOpenEntries(policy, st), entries, frames);
    case Stop =>
      FlushSpares(policy, births, st, entries, frames);
      CommitOpenSpares(policy, FlushHeldText(policy, births, st), entries, frames);
  }

  lemma {:induction false} ChunksSpare(policy: Policy, births: Births, st: Stream, chunks: seq<Chunk>,
      entries: seq<Entry>,
      frames: seq<Frame>)
    requires Usable(policy) && Begins(st, entries, frames)
    ensures Begins(ProcessChunks(policy, births, st, chunks), entries, frames)
    decreases |chunks|
  {
    hide Begins, ProcessChunk;
    if chunks != [] {
      ChunkSpares(policy, births, st, chunks[0], entries, frames);
      ChunksSpare(policy, births, ProcessChunk(policy, births, st, chunks[0]), chunks[1..], entries, frames);
    }
  }

  lemma CutOffSpares(policy: Policy, st: Stream, kind: Kind, entries: seq<Entry>, frames: seq<Frame>)
    requires Usable(policy) && Begins(st, entries, frames)
    ensures Begins(CloseCutOff(policy, st, kind), entries, frames)
  {
  }

  lemma EndSpares(policy: Policy, births: Births, closed: Stream, entries: seq<Entry>, frames: seq<Frame>)
    requires Usable(policy) && Begins(closed, entries, frames)
    ensures Begins(CloseCutOff(policy, CloseCutOff(policy, FlushHeldText(policy, births, closed), Thought), Answer),
                   entries, frames)
  {
    hide Begins, CloseCutOff, FlushHeldText;
    FlushSpares(policy, births, closed, entries, frames);
    var flushed := FlushHeldText(policy, births, closed);
    CutOffSpares(policy, flushed, Thought, entries, frames);
    CutOffSpares(policy, CloseCutOff(policy, flushed, Thought), Answer, entries, frames);
  }

  // ----- The turn -----

  /** How many entries the run counts as it closes: all but an answer or a thought the handler flushes after it. */
  function Counted(policy: Policy, births: Births, entries: seq<Entry>, frames: seq<Frame>, content: string,
      chunks: seq<Chunk>, dropped: Option<Chunk>): nat
    requires Usable(policy)
  {
    var begun := BeginTurn(policy, births, entries, frames, content);
    |DropChunk(policy, ProcessChunks(policy, births, begun, chunks), dropped).entries|
  }

  /** Of this many entries, the one at i is older than the policy keeps content for. */
  predicate TooOld(policy: Policy, counted: nat, i: nat) {
    policy.maxContentEntries.Some? && i + policy.maxContentEntries.value < counted
  }

  /** What was there before a turn, and what a user said, is at its end as it was: closed, and cleared exactly when it
    * is too old for the policy. */
  lemma EarlierEntriesStay(policy: Policy, births: Births, entries: seq<Entry>, frames: seq<Frame>, content: string,
      chunks: seq<Chunk>, dropped: Option<Chunk>)
    requires Usable(policy)
    ensures var end := Turn(policy, births, entries, frames, content, chunks, dropped);
            var counted := Counted(policy, births, entries, frames, content, chunks, dropped);
            var asked := entries + [UserEntry(content, Some(births.at(|entries|)), false)];
            && |asked| <= counted <= |end.entries| <= counted + 1
            && frames + [Upsert(|entries|, asked[|entries|])] <= end.frames
            && forall i: nat :: i < |asked| ==>
                 end.entries[i] == if TooOld(policy, counted, i) then Kept(CutShort(policy, asked[i]))
                                   else CutShort(policy, asked[i])
  {
    hide ProcessChunks, CloseCutOff, FlushHeldText;
    var begun := BeginTurn(policy, births, entries, frames, content);
    var user := UserEntry(content, Some(births.at(|entries|)), false);
    assert begun.entries == entries + [user] && begun.frames == frames + [Upsert(|entries|, user)];
    ChunksSpare(policy, births, begun, chunks, begun.entries, begun.frames);
    var streamed := ProcessChunks(policy, births, begun, chunks);
    if dropped.Some? && dropped.value.ToolResult? {
      StoreSpares(policy, streamed.entries, dropped.value.supplied);
    }
    var left := DropChunk(policy, streamed, dropped);
    var closed := left.(entries := TurnClosed(policy, left.entries));
    assert |closed.entries| == |left.entries|;
    EndSpares(policy, births, closed, closed.entries[..|begun.entries|], begun.frames);
    EndKeepsCount(policy, births, closed);
  }

  lemma EndKeepsCount(policy: Policy, births: Births, closed: Stream)
    requires Usable(policy)
    ensures var end := CloseCutOff(policy, CloseCutOff(policy, FlushHeldText(policy, births, closed), Thought), Answer);
            |closed.entries| <= |end.entries| <= |closed.entries| + 1
  {
    hide FlushHeldText, HandleSegment, CloseCutOff;
    FlushIsOneSegment(policy, births, closed);
    if closed.buffer != "" {
      SegmentAddsOne(policy, births, closed.(buffer := ""), Segment(KindFor(closed.inside), closed.buffer));
    }
    var flushed := FlushHeldText(policy, births, closed);
    CutOffAddsNone(policy, flushed, Thought);
    CutOffAddsNone(policy, CloseCutOff(policy, flushed, Thought), Answer);
  }

  lemma CommitAddsNone(policy: Policy, st: Stream, kind: Kind)
    requires Usable(policy)
    ensures |CommitAndClear(policy, st, kind).entries| == |st.entries|
  {
  }

  lemma CutOffAddsNone(policy: Policy, st: Stream, kind: Kind)
    requires Usable(policy)
    ensures |CloseCutOff(policy, st, kind).entries| == |st.entries|
  {
  }

  lemma StreamAddsOne(policy: Policy, births: Births, st: Stream, kind: Kind, content: string)
    requires Usable(policy)
    ensures |st.entries| <= |StreamSegment(policy, births, st, kind, content).entries| <= |st.entries| + 1
  {
  }

  lemma SegmentAddsOne(policy: Policy, births: Births, st: Stream, segment: Segment)
    requires Usable(policy)
    ensures |st.entries| <= |HandleSegment(policy, births, st, segment).entries| <= |st.entries| + 1
  {
    hide StreamSegment, CommitAndClear;
    CommitAddsNone(policy, st, Thought);
    StreamAddsOne(policy, births, st, Thought, segment.content);
    StreamAddsOne(policy, births, CommitAndClear(policy, st, Thought), Answer, segment.content);
  }

  /** The user's message, whatever the turn's chunks and ending and under any policy: it is the first thing sent, word
    * for word, and it is stored word for word, unless the turn left more entries behind it than the policy keeps
    * content for, when exactly it is stored emptied. */
  lemma QuestionIsStoredAndSent(policy: Policy, births: Births, entries: seq<Entry>, frames: seq<Frame>,
      content: string,
      chunks: seq<Chunk>, dropped: Option<Chunk>)
    requires Usable(policy)
    ensures var end := Turn(policy, births, entries, frames, content, chunks, dropped);
            var counted := Counted(policy, births, entries, frames, content, chunks, dropped);
            var said := UserEntry(content, Some(births.at(|entries|)), false);
            && |entries| < counted <= |end.entries| <= counted + 1
            && |frames| < |end.frames| && end.frames[..|frames|] == frames
            && end.frames[|frames|] == Upsert(|entries|, said)
            && end.entries[|entries|] == if TooOld(policy, counted, |entries|) then Cleared(said) else said
  {
    hide Turn, Counted;
    EarlierEntriesStay(policy, births, entries, frames, content, chunks, dropped);
    var sent := frames + [Upsert(|entries|, UserEntry(content, Some(births.at(|entries|)), false))];
    var end := Turn(policy, births, entries, frames, content, chunks, dropped);
    assert end.frames[..|sent|] == sent;
    assert end.frames[|frames|] == sent[|frames|] && end.frames[..|frames|] == sent[..|frames|];
  }
}
