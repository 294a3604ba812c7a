/** What a turn stamps on the entries it opens: the moment of their creation, and on an answer the persona then
  * speaking. */
module TurnBirths {
  import opened Wrappers
  import opened ThinkingTags
  import opened SessionEntries
  import opened Frames
  import opened StreamingTurn

  /** Stamped as the clock and the session's persona read when it was opened. */
  predicate BornAt(births: Births, e: Entry, i: nat) {
    && e.ModelEntry? && e.timestamp == Some(births.at(i))
    && match e.author
       case Assistant => e.persona == births.persona(i)
       case Thinking => e.persona == None
  }

  predicate AllBorn(births: Births, st: Stream) {
    forall i :: i in st.authored ==> i < |st.entries| && BornAt(births, st.entries[i], i)
  }

  lemma OpenBorn(births: Births, st: Stream, kind: Kind)
    requires AllBorn(births, st)
    ensures AllBorn(births, OpenEntry(NO_POLICY, births, st, kind))
  {
  }

  lemma GrowBorn(births: Births, st: Stream, kind: Kind, content: string)
    requires AllBorn(births, st) && st.IndexOf(kind).Some?
    ensures AllBorn(births, Grow(NO_POLICY, st, kind, content))
  {
  }

  lemma CommitBorn(births: Births, st: Stream, kind: Kind)
    requires AllBorn(births, st)
    ensures AllBorn(births, CommitAndClear(NO_POLICY, st, kind))
  {
  }

  lemma SegmentBorn(births: Births, st: Stream, kind: Kind, content: string)
    requires AllBorn(births, st)
    ensures AllBorn(births, StreamSegment(NO_POLICY, births, st, kind, content))
  {
    hide AllBorn;
    OpenBorn(births, st, kind);
    GrowBorn(births, if st.IndexOf(kind).Some? then st else OpenEntry(NO_POLICY, births, st, kind), kind, content);
  }

  lemma HandleSegmentBorn(births: Births, st: Stream, segment: Segment)
    requires AllBorn(births, st)
    ensures AllBorn(births, HandleSegment(NO_POLICY, births, st, segment))
  {
    hide AllBorn;
    CommitBorn(births, st, Thought);
    if segment.kind.Thought? {
      SegmentBorn(births, st, Thought, segment.content);
    } else {
      SegmentBorn(births, CommitAndClear(NO_POLICY, st, Thought), Answer, segment.content);
    }
  }

  lemma {:induction false} HandleSegmentsBorn(births: Births, st: Stream, segments: seq<Segment>)
    requires AllBorn(births, st)
    ensures AllBorn(births, HandleSegments(NO_POLICY, births, st, segments))
    decreases |segments|
  {
    hide AllBorn, HandleSegment;
    if segments != [] {
      HandleSegmentBorn(births, st, segments[0]);
      HandleSegmentsBorn(births, HandleSegment(NO_POLICY, births, st, segments[0]), segments[1..]);
    }
  }

  lemma AsideBorn(births: Births, st: Stream, next: Stream)
    requires AllBorn(births, st) && next.authored == st.authored && |st.entries| <= |next.entries|
    requires next.entries[..|st.entries|] == st.entries
    ensures AllBorn(births, next)
  {
    assert forall i :: 0 <= i < |st.entries| ==> next.entries[i] == next.entries[..|st.entries|][i];
  }

  lemma FlushBorn(births: Births, st: Stream)
    requires AllBorn(births, st)
    ensures AllBorn(births, FlushHeldText(NO_POLICY, births, st))
  {
    AsideBorn(births, st, st.(buffer := ""));
    HandleSegmentsBorn(births, st.(buffer := ""), Emitted(KindFor(st.inside), st.buffer));
  }

  lemma CommitOpenBorn(births: Births, st: Stream)
    requires AllBorn(births, st)
    ensures AllBorn(births, CommitOpenEntries(NO_POLICY, st))
  {
    hide AllBorn, CommitAndClear;
    CommitBorn(births, st, Thought);
    CommitBorn(births, CommitAndClear(NO_POLICY, st, Thought), Answer);
  }

  lemma {:induction false} BlankAllBorn(births: Births, st: Stream)
    requires AllBorn(births, st)
    ensures AllBorn(births, BlankAll(st))
    decreases |st.blankable|
  {
    if st.blankable != [] {
      BlankAllBorn(births, BlankFirst(st));
    }
  }

  lemma ChunkBorn(births: Births, st: Stream, chunk: Chunk)
    requires AllBorn(births, st)
    ensures AllBorn(births, ProcessChunk(NO_POLICY, births, st, chunk))
  {
    hide AllBorn, HandleSegments, CommitOpenEntries, FlushHeldText, BlankAll, ForwardFrom, Drain;
    match chunk
    case TextChunk(text) =>
      var d := Drain(st.buffer + text, st.inside);
      var fed := st.(buffer := d.buffer, inside := d.inside);
      AsideBorn(births, st, fed);
      HandleSegmentsBorn(births, fed, d.segments);
    case ToolUse(name, input) => AsideBorn(births, st, ProcessToolUse(NO_POLICY, births, st, name, input));
    case ToolResult(supplied) =>
      StoringAppends(NO_POLICY, st.entries, supplied);
      ForwardLeaves(st.(entries := StoreSupplied(NO_POLICY, st.entries, supplied)), |st.entries|);
      AsideBorn(births, st, ProcessToolResult(NO_POLICY, st, supplied));
    case SuppressOutput =>
      CommitOpenBorn(births, st);
      var mid := CommitOpenEntries(NO_POLICY, st);
      BlankAllBorn(births, mid);
      AsideBorn(births, BlankAll(mid), BlankAll(mid).(suppressOutput := true));
    case Stop =>
      FlushBorn(births, st);
      CommitOpenBorn(births, FlushHeldText(NO_POLICY, births, st));
  }

  lemma {:induction false} ChunksBorn(births: Births, st: Stream, chunks: seq<Chunk>)
    requires AllBorn(births, st)
    ensures AllBorn(births, ProcessChunks(NO_POLICY, births, st, chunks))
    decreases |chunks|
  {
    hide AllBorn, ProcessChunk;
    if chunks != [] {
      ChunkBorn(births, st, chunks[0]);
      ChunksBorn(births, ProcessChunk(NO_POLICY, births, st, chunks[0]), chunks[1..]);
    }
  }

  lemma CutOffBorn(births: Births, st: Stream, kind: Kind)
    requires AllBorn(births, st)
    ensures AllBorn(births, CloseCutOff(NO_POLICY, st, kind))
  {
    if st.IndexOf(kind).Some? && st.IndexOf(kind).value < |st.entries| {
      var index := st.IndexOf(kind).value;
      var marked := st.(entries := Apply(NO_POLICY, st.entries, Truncates(index)));
      assert AllBorn(births, marked);
      hide AllBorn;
      AsideBorn(births, marked, marked.Sent(Upsert(index, marked.entries[index])));
      CommitBorn(births, marked, kind);
      CommitBorn(births, marked.Sent(Upsert(index, marked.entries[index])), kind);
    }
  }

  lemma ClosedBorn(births: Births, st: Stream)
    requires AllBorn(births, st)
    ensures AllBorn(births, st.(entries := TurnClosed(NO_POLICY, st.entries)))
  {
  }

  /** Every entry a turn opens carries, to its end and however it ends, the moment of its creation, and an answer the
    * persona of that moment. */
  lemma AuthoredAreBorn(births: Births, entries: seq<Entry>, frames: seq<Frame>, content: string, chunks: seq<Chunk>,
      dropped: Option<Chunk>)
    ensures AllBorn(births, Turn(NO_POLICY, births, entries, frames, content, chunks, dropped))
  {
    hide ProcessChunks, CloseCutOff, FlushHeldText, TurnClosed;
    var begun := BeginTurn(NO_POLICY, births, entries, frames, content);
    assert AllBorn(births, begun);
    ChunksBorn(births, begun, chunks);
    var streamed := ProcessChunks(NO_POLICY, births, begun, chunks);
    if dropped.Some? && dropped.value.ToolResult? {
      StoringAppends(NO_POLICY, streamed.entries, dropped.value.supplied);
    }
    var left := DropChunk(NO_POLICY, streamed, dropped);
    AsideBorn(births, streamed, left);
    hide AllBorn;
    var closed := left.(entries := TurnClosed(NO_POLICY, left.entries));
    ClosedBorn(births, left);
    FlushBorn(births, closed);
    var flushed := FlushHeldText(NO_POLICY, births, closed);
    CutOffBorn(births, flushed, Thought);
    CutOffBorn(births, CloseCutOff(NO_POLICY, flushed, Thought), Answer);
  }
}
