/** What the wire says of thoughts and answers as they stream: no answer is ever heard within a thought.
  *
  * Read off the frames alone. A client holds a thought open from its upsert to its commit; in every
  * log a conversation can send, no delta of an answer falls in between.
  */
module TurnVoices {
  import opened Wrappers
  import opened ThinkingTags
  import opened SessionEntries
  import opened Frames
  import opened StreamingTurn
  import opened TurnSteps
  import opened TurnTheorems

  /** After these frames a client holds an open thought at j. */
  predicate ThinksAt(frames: seq<Frame>, j: nat) {
    var v := Seen(frames, j);
    v.Held? && v.entry.ModelEntry? && v.entry.author.Thinking? && v.entry.isStreaming
  }

  predicate AnswersAt(frames: seq<Frame>, j: nat) {
    var v := Seen(frames, j);
    v.Held? && v.entry.ModelEntry? && v.entry.author.Assistant?
  }

  ghost predicate NoThoughtOpen(frames: seq<Frame>) {
    forall j: nat :: !ThinksAt(frames, j)
  }

  /** No delta of an answer comes while any thought is open. */
  ghost predicate NeverInterrupts(frames: seq<Frame>) {
    forall k: nat :: k < |frames| && frames[k].Delta? && AnswersAt(frames[..k], frames[k].index) ==>
      NoThoughtOpen(frames[..k])
  }

  predicate Speaker(st: Stream, kind: Kind, author: Author) {
    st.IndexOf(kind).Some? ==>
      st.IndexOf(kind).value < |st.entries| && RoleOf(st.entries[st.IndexOf(kind).value]) == ModelRole(author)
  }

  ghost predicate Voiced(st: Stream) {
    && NeverInterrupts(st.frames)
    && (forall j: nat :: ThinksAt(st.frames, j) ==> st.thinkingIndex == Some(j) && !st.suppressOutput)
    && (st.thinkingIndex.Some? ==> !AnswersAt(st.frames, st.thinkingIndex.value))
    && Speaker(st, Thought, Thinking) && Speaker(st, Answer, Assistant)
    && (forall i :: i in st.blankable ==> i < |st.entries| && !IsOpen(st.entries[i]))
  }

  /** One more frame: it may be a delta of an answer only when no thought is open. */
  lemma SentKeepsOrder(frames: seq<Frame>, frame: Frame)
    requires NeverInterrupts(frames)
    requires frame.Delta? && AnswersAt(frames, frame.index) ==> NoThoughtOpen(frames)
    ensures NeverInterrupts(frames + [frame])
    ensures forall j: nat :: ThinksAt(frames + [frame], j) ==>
              if frame.index == j && !frame.Delta? then frame.Upsert? && IsOpen(frame.entry)
                && RoleOf(frame.entry) == ModelRole(Thinking)
              else ThinksAt(frames, j)
    ensures forall j: nat :: AnswersAt(frames + [frame], j) ==>
              if frame.index == j && (frame.Upsert? || frame.Skip?) then frame.Upsert?
                && RoleOf(frame.entry) == ModelRole(Assistant)
              else AnswersAt(frames, j)
  {
    hide Seen, NoThoughtOpen;
    var more := frames + [frame];
    forall k: nat | k < |more| && more[k].Delta? && AnswersAt(more[..k], more[k].index)
      ensures NoThoughtOpen(more[..k])
    {
      if k < |frames| {
        assert more[..k] == frames[..k];
      } else {
        assert more[..k] == frames;
      }
    }
    forall j: nat
      ensures Seen(more, j) == Received(Seen(frames, j), frame, j)
    {
      SeenAfter(frames, frame, j);
    }
  }

  // ----- Every step -----

  lemma OpenVoiced(births: Births, st: Stream, kind: Kind)
    requires Voiced(st) && st.IndexOf(kind).None?
    ensures Voiced(OpenEntry(NO_POLICY, births, st, kind))
  {
    hide Seen, NeverInterrupts, ThinksAt, AnswersAt;
    var index := |st.entries|;
    var entry := NewEntry(births, kind, index);
    SentKeepsOrder(st.frames, if st.suppressOutput then Skip(index) else Upsert(index, entry));
  }

  lemma GrowVoiced(st: Stream, kind: Kind, content: string)
    requires Voiced(st) && st.IndexOf(kind).Some? && (kind.Answer? ==> st.thinkingIndex.None?)
    ensures Voiced(Grow(NO_POLICY, st, kind, content))
  {
    hide Seen, NeverInterrupts, ThinksAt, AnswersAt;
    if !st.suppressOutput {
      SentKeepsOrder(st.frames, Delta(st.IndexOf(kind).value, content));
    }
  }

  lemma SegmentVoiced(births: Births, st: Stream, kind: Kind, content: string)
    requires Voiced(st) && (kind.Answer? ==> st.thinkingIndex.None?)
    ensures Voiced(StreamSegment(NO_POLICY, births, st, kind, content))
  {
    hide Voiced;
    var open := if st.IndexOf(kind).Some? then st else OpenEntry(NO_POLICY, births, st, kind);
    if st.IndexOf(kind).None? {
      OpenVoiced(births, st, kind);
    }
    GrowVoiced(open, kind, content);
  }

  lemma CommitVoiced(st: Stream, kind: Kind)
    requires Voiced(st)
    ensures Voiced(CommitAndClear(NO_POLICY, st, kind))
  {
    hide Seen, NeverInterrupts, ThinksAt, AnswersAt;
    if st.IndexOf(kind).Some? && !st.suppressOutput {
      SentKeepsOrder(st.frames, Commit(st.IndexOf(kind).value));
    }
  }

  lemma HandleSegmentVoiced(births: Births, st: Stream, segment: Segment)
    requires Voiced(st)
    ensures Voiced(HandleSegment(NO_POLICY, births, st, segment))
  {
    hide Voiced;
    if segment.kind.Thought? {
      SegmentVoiced(births, st, Thought, segment.content);
    } else {
      CommitVoiced(st, Thought);
      SegmentVoiced(births, CommitAndClear(NO_POLICY, st, Thought), Answer, segment.content);
    }
  }

  lemma {:induction false} HandleSegmentsVoiced(births: Births, st: Stream, segments: seq<Segment>)
    requires Voiced(st)
    ensures Voiced(HandleSegments(NO_POLICY, births, st, segments))
    decreases |segments|
  {
    hide Voiced, HandleSegment;
    if segments != [] {
      HandleSegmentVoiced(births, st, segments[0]);
      HandleSegmentsVoiced(births, HandleSegment(NO_POLICY, births, st, segments[0]), segments[1..]);
    }
  }

  lemma CommitOpenVoiced(st: Stream)
    requires Voiced(st)
    ensures Voiced(CommitOpenEntries(NO_POLICY, st))
  {
    hide Voiced;
    CommitVoiced(st, Thought);
    CommitVoiced(CommitAndClear(NO_POLICY, st, Thought), Answer);
  }

  lemma ParserIsSilent(st: Stream, buffer: string, inside: bool)
    requires Voiced(st)
    ensures Voiced(st.(buffer := buffer, inside := inside))
  {
    hide Seen;
  }

  lemma FlushVoiced(births: Births, st: Stream)
    requires Voiced(st)
    ensures Voiced(FlushHeldText(NO_POLICY, births, st))
  {
    hide Voiced;
    ParserIsSilent(st, "", st.inside);
    HandleSegmentsVoiced(births, st.(buffer := ""), Emitted(KindFor(st.inside), st.buffer));
  }

  /** An entry that is no open thought may be sent at any index the handler does not hold open. */
  lemma EntrySentVoiced(st: Stream, index: nat, entry: Entry)
    requires Voiced(st) && !IsOpen(entry) && st.thinkingIndex != Some(index)
    ensures Voiced(st.Sent(Upsert(index, entry)))
  {
    hide Seen, NeverInterrupts, ThinksAt, AnswersAt;
    SentKeepsOrder(st.frames, Upsert(index, entry));
  }

  /** Entries may be added, and closed, in storage with nothing said. */
  lemma StoredVoiced(st: Stream, entries: seq<Entry>)
    requires Voiced(st) && |st.entries| <= |entries|
    requires forall i :: 0 <= i < |st.entries| ==>
      RoleOf(entries[i]) == RoleOf(st.entries[i]) && (!IsOpen(st.entries[i]) ==> !IsOpen(entries[i]))
    ensures Voiced(st.(entries := entries))
  {
    hide Seen, NeverInterrupts, ThinksAt, AnswersAt;
  }

  lemma ToolUseVoiced(births: Births, st: Stream, name: string, input: map<string, string>)
    requires Voiced(st)
    ensures Voiced(ProcessToolUse(NO_POLICY, births, st, name, input))
  {
    hide Voiced;
    var index := |st.entries|;
    var entry := ToolEntry(name, input, Some(births.at(index)), false);
    var stored := st.(entries := st.entries + [entry]);
    StoredVoiced(st, st.entries + [entry]);
    assert index != |st.entries| - 1 && stored.entries[index] == entry;
    OpenIsInRange(st);
    EntrySentVoiced(stored, index, entry);
  }

  lemma OpenIsInRange(st: Stream)
    requires Voiced(st)
    ensures st.thinkingIndex.Some? ==> st.thinkingIndex.value < |st.entries|
    ensures forall i :: i in st.blankable ==> i < |st.entries| && !IsOpen(st.entries[i])
  {
  }

  lemma {:induction false} ForwardVoiced(st: Stream, from: nat)
    requires Voiced(st) && from <= |st.entries|
    requires forall i :: from <= i < |st.entries| ==> !IsOpen(st.entries[i]) && st.thinkingIndex != Some(i)
    ensures Voiced(ForwardFrom(st, from))
    decreases |st.entries| - from
  {
    hide Voiced;
    if from < |st.entries| {
      EntrySentVoiced(st, from, st.entries[from]);
      ForwardVoiced(st.Sent(Upsert(from, st.entries[from])), from + 1);
    }
  }

  lemma ToolResultVoiced(st: Stream, supplied: seq<Entry>)
    requires Voiced(st) && forall e :: e in supplied ==> Finished(e)
    ensures Voiced(ProcessToolResult(NO_POLICY, st, supplied))
  {
    hide Voiced;
    StoredAreSupplied(st.entries, supplied);
    StoredVoiced(st, st.entries + supplied);
    OpenIsInRange(st);
    var n := |st.entries|;
    forall i | n <= i < n + |supplied|
      ensures Finished((st.entries + supplied)[i])
    {
      assert supplied[i - n] in supplied;
    }
    ForwardVoiced(st.(entries := st.entries + supplied), n);
  }

  lemma BlankFirstVoiced(st: Stream)
    requires Voiced(st) && st.thinkingIndex.None? && st.blankable != []
    ensures Voiced(BlankFirst(st))
  {
    hide Voiced;
    OpenIsInRange(st);
    var index := st.blankable[0];
    assert index in st.blankable && st.blankable == [index] + st.blankable[1..];
    var e := st.entries[index];
    BlankableVoiced(st, st.blankable[1..]);
    if e.ModelEntry? {
      var rest := st.(blankable := st.blankable[1..]);
      EntrySentVoiced(rest, index, e.(content := ""));
      StoredVoiced(rest.Sent(Upsert(index, e.(content := ""))), MarkSuppressed(st.entries, index));
    }
  }

  lemma BlankableVoiced(st: Stream, blankable: seq<nat>)
    requires Voiced(st) && forall i :: i in blankable ==> i in st.blankable
    ensures Voiced(st.(blankable := blankable))
  {
    hide Seen;
  }

  lemma {:induction false} BlankAllVoiced(st: Stream)
    requires Voiced(st) && st.thinkingIndex.None?
    ensures Voiced(BlankAll(st)) && BlankAll(st).thinkingIndex.None?
    decreases |st.blankable|
  {
    hide Voiced;
    if st.blankable != [] {
      BlankFirstVoiced(st);
      BlankAllVoiced(BlankFirst(st));
    }
  }

  lemma SuppressVoiced(st: Stream)
    requires Voiced(st)
    ensures Voiced(ProcessSuppress(NO_POLICY, st))
  {
    var mid := CommitOpenEntries(NO_POLICY, st);
    CommitOpenVoiced(st);
    BlankAllVoiced(mid);
    hide Seen;
  }

  lemma ChunkVoiced(births: Births, st: Stream, chunk: Chunk)
    requires Voiced(st) && Ordinary(chunk)
    ensures Voiced(ProcessChunk(NO_POLICY, births, st, chunk))
  {
    hide Voiced;
    match chunk
    case TextChunk(text) =>
      var d := Drain(st.buffer + text, st.inside);
      ParserIsSilent(st, d.buffer, d.inside);
      HandleSegmentsVoiced(births, st.(buffer := d.buffer, inside := d.inside), d.segments);
    case ToolUse(name, input) => ToolUseVoiced(births, st, name, input);
    case ToolResult(supplied) => ToolResultVoiced(st, supplied);
    case SuppressOutput => SuppressVoiced(st);
    case Stop =>
      FlushVoiced(births, st);
      CommitOpenVoiced(FlushHeldText(NO_POLICY, births, st));
  }

  lemma {:induction false} ChunksVoiced(births: Births, st: Stream, chunks: seq<Chunk>)
    requires Voiced(st) && forall c :: c in chunks ==> Ordinary(c)
    ensures Voiced(ProcessChunks(NO_POLICY, births, st, chunks))
    decreases |chunks|
  {
    hide Voiced, ProcessChunk;
    if chunks != [] {
      ChunkVoiced(births, st, chunks[0]);
      ChunksVoiced(births, ProcessChunk(NO_POLICY, births, st, chunks[0]), chunks[1..]);
    }
  }

  // ----- A turn, and a conversation -----

  lemma CutOffVoiced(st: Stream, kind: Kind)
    requires Voiced(st)
    ensures Voiced(CloseCutOff(NO_POLICY, st, kind)) && CloseCutOff(NO_POLICY, st, kind).IndexOf(kind).None?
    ensures CloseCutOff(NO_POLICY, st, kind).IndexOf(if kind.Thought? then Answer else Thought)
            == st.IndexOf(if kind.Thought? then Answer else Thought)
  {
    hide Seen, NeverInterrupts, ThinksAt, AnswersAt;
    if st.IndexOf(kind).Some? {
      var index := st.IndexOf(kind).value;
      var entry := Truncated(st.entries[index]);
      var marked := st.(entries := Apply(NO_POLICY, st.entries, Truncates(index)));
      StoredVoiced(st, marked.entries);
      if !st.suppressOutput {
        SentKeepsOrder(st.frames, Upsert(index, entry));
        CommitVoiced(marked.Sent(Upsert(index, entry)), kind);
      } else {
        CommitVoiced(marked, kind);
      }
    }
  }

  lemma EndVoiced(births: Births, st: Stream)
    requires Voiced(st)
    ensures var end := EndTurn(NO_POLICY, births, st); Voiced(end) && end.thinkingIndex.None?
  {
    hide Voiced, CloseCutOff, FlushHeldText;
    var closed := st.(entries := TurnClosed(NO_POLICY, st.entries));
    StoredVoiced(st, closed.entries);
    FlushVoiced(births, closed);
    var flushed := FlushHeldText(NO_POLICY, births, closed);
    CutOffVoiced(flushed, Thought);
    CutOffVoiced(CloseCutOff(NO_POLICY, flushed, Thought), Answer);
  }

  lemma BeginVoiced(births: Births, entries: seq<Entry>, frames: seq<Frame>, content: string)
    requires NeverInterrupts(frames) && NoThoughtOpen(frames)
    ensures Voiced(BeginTurn(NO_POLICY, births, entries, frames, content))
  {
    hide Seen, NeverInterrupts, ThinksAt, AnswersAt;
    SentKeepsOrder(frames, Upsert(|entries|, UserEntry(content, Some(births.at(|entries|)), false)));
  }

  /** A turn, whatever its chunks and its ending, never sends answer text within a thought, and leaves no thought
    * open. */
  lemma NoAnswerWithinAThought(births: Births, entries: seq<Entry>, frames: seq<Frame>, content: string,
      chunks: seq<Chunk>, dropped: Option<Chunk>)
    requires NeverInterrupts(frames) && NoThoughtOpen(frames)
    requires (forall c :: c in chunks ==> Ordinary(c)) && (dropped.Some? ==> Ordinary(dropped.value))
    ensures var end := Turn(NO_POLICY, births, entries, frames, content, chunks, dropped);
            NeverInterrupts(end.frames) && NoThoughtOpen(end.frames)
  {
    hide Voiced, ProcessChunks, EndTurn, BeginTurn;
    var begun := BeginTurn(NO_POLICY, births, entries, frames, content);
    BeginVoiced(births, entries, frames, content);
    ChunksVoiced(births, begun, chunks);
    var streamed := ProcessChunks(NO_POLICY, births, begun, chunks);
    DropVoiced(streamed, dropped);
    EndVoiced(births, DropChunk(NO_POLICY, streamed, dropped));
    EndIsQuiet(Turn(NO_POLICY, births, entries, frames, content, chunks, dropped));
  }

  lemma DropVoiced(st: Stream, dropped: Option<Chunk>)
    requires Voiced(st) && (dropped.Some? ==> Ordinary(dropped.value))
    ensures Voiced(DropChunk(NO_POLICY, st, dropped))
  {
    hide Voiced;
    if dropped.Some? && dropped.value.ToolResult? {
      StoredAreSupplied(st.entries, dropped.value.supplied);
      StoredVoiced(st, st.entries + dropped.value.supplied);
    }
  }

  lemma EndIsQuiet(st: Stream)
    requires Voiced(st) && st.thinkingIndex.None?
    ensures NeverInterrupts(st.frames) && NoThoughtOpen(st.frames)
  {
    hide ThinksAt, NeverInterrupts;
  }

  /** So in the log of any conversation, from its first message, no answer is ever heard within a thought. */
  lemma {:induction false} ConversationNeverInterrupts(entries: seq<Entry>, frames: seq<Frame>,
      exchanges: seq<Exchange>)
    requires NeverInterrupts(frames) && NoThoughtOpen(frames)
    requires forall x :: x in exchanges ==> OrdinaryExchange(x)
    ensures NeverInterrupts(Converse(entries, frames, exchanges).1)
    decreases |exchanges|
  {
    hide NeverInterrupts, NoThoughtOpen, Turn;
    if exchanges != [] {
      var x := exchanges[0];
      assert OrdinaryExchange(x);
      NoAnswerWithinAThought(x.births, entries, frames, x.content, x.chunks, x.dropped);
      var end := Turn(NO_POLICY, x.births, entries, frames, x.content, x.chunks, x.dropped);
      ConversationNeverInterrupts(end.entries, end.frames, exchanges[1..]);
    }
  }
}
