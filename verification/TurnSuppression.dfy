/** What a turn's steps never do to what is already there, and what suppression therefore means for the rest of a
  * turn. */
module TurnSuppression {
  import opened Wrappers
  import opened ThinkingTags
  import opened SessionEntries
  import opened Frames
  import opened StreamingTurn
  import opened TurnInvariant
  import opened TurnSteps
  import opened TurnTheorems

  /** Frames past `from` that tell a client nothing of the model's words: skips, and other entries' frames. */
  predicate QuietSince(next: Stream, from: nat) {
    forall k :: from <= k < |next.frames| ==>
      next.frames[k].index < |next.entries| && (next.frames[k].Skip? || next.frames[k].index !in next.authored)
  }

  /** Slots, frames and authorship only accrue; entries the handler did not open stay as stored; suppression stays, and
    * is quiet. */
  predicate Grew(st: Stream, next: Stream) {
    && |st.entries| <= |next.entries|
    && |st.frames| <= |next.frames| && next.frames[..|st.frames|] == st.frames
    && (forall i :: i in st.authored ==> i in next.authored)
    && (forall i :: i in next.authored ==> i in st.authored || i >= |st.entries|)
    && (forall i: nat :: i < |st.entries| && i !in st.authored ==> next.entries[i] == st.entries[i])
    && (st.suppressOutput ==> next.suppressOutput && QuietSince(next, |st.frames|))
  }

  lemma GrewThrough(st: Stream, mid: Stream, next: Stream)
    requires Grew(st, mid) && Grew(mid, next)
    ensures Grew(st, next)
  {
    assert next.frames[..|st.frames|] == next.frames[..|mid.frames|][..|st.frames|];
    if st.suppressOutput {
      forall k | |st.frames| <= k < |next.frames|
        ensures next.frames[k].index < |next.entries|
          && (next.frames[k].Skip? || next.frames[k].index !in next.authored)
      {
        if k < |mid.frames| {
          assert next.frames[k] == next.frames[..|mid.frames|][k] == mid.frames[k];
        }
      }
    }
  }

  lemma SegmentGrows(births: Births, st: Stream, kind: Kind, content: string, off: set<nat>, late: bool)
    requires Inv(st, off, late)
    ensures Grew(st, StreamSegment(NO_POLICY, births, st, kind, content))
  {
    hide Seen, Life, Distinct, StreamingOk, LaggingOk, ClosedOk, NothingAhead;
    if st.IndexOf(kind).Some? {
      assert IndexOk(st, off, late, st.IndexOf(kind).value);
    }
  }

  lemma CommitGrows(st: Stream, kind: Kind, off: set<nat>, late: bool)
    requires Inv(st, off, late)
    ensures Grew(st, CommitAndClear(NO_POLICY, st, kind))
  {
    hide Seen, Life, Distinct, StreamingOk, LaggingOk, ClosedOk, NothingAhead;
    if st.IndexOf(kind).Some? {
      assert IndexOk(st, off, late, st.IndexOf(kind).value);
    }
  }

  lemma HandleSegmentGrows(births: Births, st: Stream, segment: Segment, off: set<nat>)
    requires Inv(st, off, false) && Spoken(st) && segment.content != ""
    ensures Grew(st, HandleSegment(NO_POLICY, births, st, segment))
  {
    hide Grew, Inv, Spoken, StreamSegment, CommitAndClear;
    if segment.kind.Thought? {
      SegmentGrows(births, st, Thought, segment.content, off, false);
    } else {
      var mid := CommitAndClear(NO_POLICY, st, Thought);
      OpenStreams(st, Thought, off);
      CommitKeeps(st, Thought, off, false);
      CommitGrows(st, Thought, off, false);
      SegmentGrows(births, mid, Answer, segment.content, off, false);
      GrewThrough(st, mid, StreamSegment(NO_POLICY, births, mid, Answer, segment.content));
    }
  }

  lemma {:induction false} HandleSegmentsGrow(births: Births, st: Stream, segments: seq<Segment>, off: set<nat>)
    requires Inv(st, off, false) && Spoken(st) && NoneEmpty(segments)
    ensures Grew(st, HandleSegments(NO_POLICY, births, st, segments))
    decreases |segments|
  {
    if segments != [] {
      hide Grew, Inv, Spoken, HandleSegment;
      var mid := HandleSegment(NO_POLICY, births, st, segments[0]);
      HandleSegmentKeeps(births, st, segments[0], off);
      HandleSegmentGrows(births, st, segments[0], off);
      HandleSegmentsGrow(births, mid, segments[1..], off);
      GrewThrough(st, mid, HandleSegments(NO_POLICY, births, mid, segments[1..]));
    }
  }

  lemma CommitOpenGrows(st: Stream, off: set<nat>)
    requires Inv(st, off, false) && Spoken(st)
    ensures Grew(st, CommitOpenEntries(NO_POLICY, st))
  {
    hide Grew, Inv, Spoken, CommitAndClear;
    var mid := CommitAndClear(NO_POLICY, st, Thought);
    CommitGrows(st, Thought, off, false);
    OpenStreams(st, Thought, off);
    CommitKeeps(st, Thought, off, false);
    CommitGrows(mid, Answer, off, false);
    GrewThrough(st, mid, CommitAndClear(NO_POLICY, mid, Answer));
  }

  lemma StoringGrows(st: Stream, supplied: seq<Entry>)
    requires InRange(st)
    ensures Grew(st, st.(entries := StoreSupplied(NO_POLICY, st.entries, supplied)))
  {
    StoringAppends(NO_POLICY, st.entries, supplied);
    var stored := StoreSupplied(NO_POLICY, st.entries, supplied);
    forall i: nat | i < |st.entries|
      ensures stored[i] == st.entries[i]
    {
      assert stored[i] == stored[..|st.entries|][i];
    }
  }

  lemma {:induction false} ForwardGrows(st: Stream, from: nat)
    requires from <= |st.entries| && InRange(st)
    requires forall i :: i in st.authored ==> i < from
    ensures Grew(st, ForwardFrom(st, from))
    decreases |st.entries| - from
  {
    if from < |st.entries| {
      var mid := st.Sent(Upsert(from, st.entries[from]));
      ForwardGrows(mid, from + 1);
      GrewThrough(st, mid, ForwardFrom(mid, from + 1));
    }
  }

  lemma ToolResultGrows(st: Stream, supplied: seq<Entry>)
    requires InRange(st)
    ensures Grew(st, ProcessToolResult(NO_POLICY, st, supplied))
  {
    var stored := st.(entries := StoreSupplied(NO_POLICY, st.entries, supplied));
    StoringAppends(NO_POLICY, st.entries, supplied);
    StoringGrows(st, supplied);
    ForwardGrows(stored, |st.entries|);
    GrewThrough(st, stored, ForwardFrom(stored, |st.entries|));
  }

  lemma {:induction false} BlankAllGrows(st: Stream, off: set<nat>)
    requires Inv(st, off, false) && st.thinkingIndex.None? && st.assistantIndex.None? && !st.suppressOutput
    ensures Grew(st, BlankAll(st))
    decreases |st.blankable|
  {
    if st.blankable != [] {
      hide Seen, Life, Distinct, NothingAhead;
      var k := st.blankable[0];
      assert k in st.blankable;
      assert IndexOk(st, off, false, k);
      BlankFirstKeeps(st, off);
      BlankAllGrows(BlankFirst(st), off);
      GrewThrough(st, BlankFirst(st), BlankAll(BlankFirst(st)));
    }
  }

  lemma SuppressGrows(st: Stream, off: set<nat>)
    requires Inv(st, off, false) && Spoken(st)
    ensures Grew(st, ProcessSuppress(NO_POLICY, st)) && ProcessSuppress(NO_POLICY, st).suppressOutput
  {
    var mid := CommitOpenEntries(NO_POLICY, st);
    CommitOpenGrows(st, off);
    CommitOpenKeeps(st, off);
    if !mid.suppressOutput {
      BlankAllGrows(mid, off);
      GrewThrough(st, mid, BlankAll(mid));
    }
  }

  lemma AsideGrows(st: Stream, buffer: string, inside: bool, next: Stream)
    requires Grew(st.(buffer := buffer, inside := inside), next)
    ensures Grew(st, next)
  {
  }

  lemma ChunkGrows(births: Births, st: Stream, chunk: Chunk, off: set<nat>)
    requires Inv(st, off, false) && Spoken(st) && Ordinary(chunk)
    ensures Grew(st, ProcessChunk(NO_POLICY, births, st, chunk))
  {
    hide Seen, Life, Distinct, IndexOk, NothingAhead, Drain;
    match chunk
    case TextChunk(text) =>
      var d := Drain(st.buffer + text, st.inside);
      ParserIsAside(st, d.buffer, d.inside, off, false);
      HandleSegmentsGrow(births, st.(buffer := d.buffer, inside := d.inside), d.segments, off);
      AsideGrows(st, d.buffer, d.inside, ProcessChunk(NO_POLICY, births, st, chunk));
    case ToolUse(name, input) =>
    case ToolResult(supplied) => ToolResultGrows(st, supplied);
    case SuppressOutput => SuppressGrows(st, off);
    case Stop =>
      var segments := Emitted(KindFor(st.inside), st.buffer);
      var flushed := FlushHeldText(NO_POLICY, births, st);
      ParserIsAside(st, "", st.inside, off, false);
      HandleSegmentsGrow(births, st.(buffer := ""), segments, off);
      HandleSegmentsKeep(births, st.(buffer := ""), segments, off);
      AsideGrows(st, "", st.inside, flushed);
      CommitOpenGrows(flushed, off);
      GrewThrough(st, flushed, CommitOpenEntries(NO_POLICY, flushed));
  }

  lemma {:induction false} ChunksGrow(births: Births, st: Stream, chunks: seq<Chunk>, off: set<nat>)
    requires Inv(st, off, false) && Spoken(st)
    requires forall c :: c in chunks ==> Ordinary(c)
    ensures Grew(st, ProcessChunks(NO_POLICY, births, st, chunks))
    decreases |chunks|
  {
    if chunks != [] {
      hide Grew, Inv, Spoken, ProcessChunk;
      var mid := ProcessChunk(NO_POLICY, births, st, chunks[0]);
      ChunkKeeps(births, st, chunks[0], off);
      ChunkGrows(births, st, chunks[0], off);
      ChunksGrow(births, mid, chunks[1..], off);
      GrewThrough(st, mid, ProcessChunks(NO_POLICY, births, mid, chunks[1..]));
    }
  }

  // ----- The end of the turn -----

  lemma RunClosedGrows(st: Stream, off: set<nat>)
    requires Inv(st, off, false) && Spoken(st)
    ensures Grew(st, RunClosed(st))
  {
    forall i: nat | i < |st.entries| && i !in st.authored
      ensures CutShort(NO_POLICY, st.entries[i]) == st.entries[i]
    {
      assert IndexOk(st, off, false, i);
    }
  }

  lemma CutOffGrows(st: Stream, kind: Kind, off: set<nat>)
    requires Inv(st, off, true)
    ensures Grew(st, CloseCutOff(NO_POLICY, st, kind))
  {
    hide Seen, Life, Distinct, StreamingOk, LaggingOk, ClosedOk, NothingAhead;
    if st.IndexOf(kind).Some? {
      var k := st.IndexOf(kind).value;
      assert IndexOk(st, off, true, k);
      CutOffFrames(st, kind, k);
    }
  }

  lemma LateFlushGrows(births: Births, st: Stream, off: set<nat>)
    requires Inv(st, off, true) && Spoken(st) && Lags(st, Thought)
    ensures Grew(st, FlushHeldText(NO_POLICY, births, st))
  {
    hide Seen, Life, Distinct, IndexOk, NothingAhead, Grew, StreamSegment;
    FlushIsOneSegment(NO_POLICY, births, st);
    var flushed := st.(buffer := "");
    ParserIsAside(st, "", st.inside, off, true);
    if st.buffer == "" {
      ItselfGrows(st);
    } else if st.inside {
      SegmentGrows(births, flushed, Thought, st.buffer, off, true);
      AsideGrows(st, "", st.inside, FlushHeldText(NO_POLICY, births, st));
    } else {
      var mid := CommitAndClear(NO_POLICY, flushed, Thought);
      CommitGrows(flushed, Thought, off, true);
      if flushed.thinkingIndex.Some? {
        CommitLags(flushed, Thought, off, flushed.thinkingIndex.value);
        SegmentGrows(births, mid, Answer, st.buffer,
          if flushed.suppressOutput then off else off + {flushed.thinkingIndex.value}, true);
      } else {
        SegmentGrows(births, mid, Answer, st.buffer, off, true);
      }
      GrewThrough(flushed, mid, StreamSegment(NO_POLICY, births, mid, Answer, st.buffer));
      AsideGrows(st, "", st.inside, FlushHeldText(NO_POLICY, births, st));
    }
  }

  lemma ItselfGrows(st: Stream)
    ensures Grew(st, st)
  {
  }

  lemma EndGrows(births: Births, st: Stream, off: set<nat>)
    requires Inv(st, off, false) && Spoken(st)
    ensures Grew(st, EndTurn(NO_POLICY, births, st))
  {
    hide Inv, Spoken, InRange, CloseCutOff, FlushHeldText, Grew;
    var closed := RunClosed(st);
    RunClosedKeeps(st, off);
    RunClosedGrows(st, off);
    LateFlushKeeps(births, closed, off);
    LateFlushGrows(births, closed, off);
    var flushed := FlushHeldText(NO_POLICY, births, closed);
    var off' := off + StrandedThought(closed);
    CutOffKeeps(flushed, Thought, off');
    CutOffGrows(flushed, Thought, off');
    var cut := CloseCutOff(NO_POLICY, flushed, Thought);
    CutOffGrows(cut, Answer, off');
    GrewThrough(st, closed, flushed);
    GrewThrough(st, flushed, cut);
    GrewThrough(st, cut, CloseCutOff(NO_POLICY, cut, Answer));
  }

  // ----- Suppression -----

  lemma {:induction false} ProcessConcat(policy: Policy, births: Births, st: Stream, first: seq<Chunk>,
      second: seq<Chunk>)
    requires Usable(policy)
    ensures ProcessChunks(policy, births, st, first + second)
         == ProcessChunks(policy, births, ProcessChunks(policy, births, st, first), second)
    decreases |first|
  {
    hide ProcessChunk;
    if first == [] {
      assert first + second == second;
    } else {
      assert (first + second)[1..] == first[1..] + second;
      ProcessConcat(policy, births, ProcessChunk(policy, births, st, first[0]), first[1..], second);
    }
  }

  /** The turn as it stands just after a suppression that followed `before`. */
  function Suppressed(births: Births, entries: seq<Entry>, frames: seq<Frame>, content: string,
      before: seq<Chunk>): Stream {
    ProcessSuppress(NO_POLICY, Streamed(births, entries, frames, content, before))
  }

  /** A frame with nothing of what an entry says: a skip, a commit, or the entry re-sent blank. */
  predicate Wordless(frame: Frame) {
    match frame
    case Skip(_) => true
    case Commit(_) => true
    case Upsert(_, entry) => entry.ModelEntry? && entry.content == ""
    case Delta(_, _) => false
  }

  /** Past `from`, the handler's own entries get wordless frames alone. */
  predicate WordlessSince(next: Stream, from: nat) {
    forall k :: from <= k < |next.frames| && next.frames[k].index in next.authored ==> Wordless(next.frames[k])
  }

  /** From st to next every frame sent, whosever it is, is wordless. */
  predicate SentWordless(st: Stream, next: Stream) {
    && |st.frames| <= |next.frames| && next.frames[..|st.frames|] == st.frames
    && forall k :: |st.frames| <= k < |next.frames| ==> Wordless(next.frames[k])
  }

  lemma SentThrough(st: Stream, mid: Stream, next: Stream)
    requires SentWordless(st, mid) && SentWordless(mid, next)
    ensures SentWordless(st, next)
  {
    assert next.frames[..|st.frames|] == next.frames[..|mid.frames|][..|st.frames|];
    forall k | |st.frames| <= k < |next.frames|
      ensures Wordless(next.frames[k])
    {
      if k < |mid.frames| {
        assert next.frames[k] == next.frames[..|mid.frames|][k] == mid.frames[k];
      }
    }
  }

  lemma {:induction false} BlankAllIsWordless(st: Stream)
    ensures SentWordless(st, BlankAll(st))
    decreases |st.blankable|
  {
    if st.blankable != [] {
      BlankAllIsWordless(BlankFirst(st));
      SentThrough(st, BlankFirst(st), BlankAll(BlankFirst(st)));
    }
  }

  /** The suppression itself says nothing: it commits what is open and retracts what was shown. */
  lemma SuppressIsWordless(st: Stream)
    ensures SentWordless(st, ProcessSuppress(NO_POLICY, st))
  {
    var mid := CommitAndClear(NO_POLICY, st, Thought);
    var committed := CommitOpenEntries(NO_POLICY, st);
    SentThrough(st, mid, committed);
    BlankAllIsWordless(committed);
    SentThrough(st, committed, BlankAll(committed));
  }

  /** Suppression is total. Whatever came before it and however the turn goes on and ends: every entry the handler
    * opened this turn ends stored suppressed; from the suppression on, its own frames included, no frame carries any of
    * their text; and no entry a tool or the user wrote is changed, by the suppression or by anything after it. */
  lemma SuppressionIsTotal(births: Births, entries: seq<Entry>, frames: seq<Frame>, content: string,
      before: seq<Chunk>, after: seq<Chunk>, dropped: Option<Chunk>, off: set<nat>)
    requires AtRest(entries, frames, off)
    requires (forall c :: c in before ==> Ordinary(c)) && (forall c :: c in after ==> Ordinary(c))
    requires dropped.Some? ==> Ordinary(dropped.value)
    ensures var st := Streamed(births, entries, frames, content, before);
            var at := Suppressed(births, entries, frames, content, before);
            var end := Turn(NO_POLICY, births, entries, frames, content, before + [SuppressOutput] + after, dropped);
            && (forall i :: i in end.authored ==>
                  i < |end.entries| && end.entries[i].ModelEntry? && end.entries[i].suppressed)
            && |st.frames| <= |end.frames| && end.frames[..|st.frames|] == st.frames && WordlessSince(end, |st.frames|)
            && |at.frames| <= |end.frames| && end.frames[..|at.frames|] == at.frames && QuietSince(end, |at.frames|)
            && |st.entries| <= |end.entries|
            && (forall i: nat :: i < |st.entries| && i !in st.authored ==> end.entries[i] == st.entries[i])
  {
    hide AtRest, BeginTurn, ProcessChunks, ProcessChunk, ProcessSuppress, EndTurn, Grew, Inv, Spoken, Seen, Life,
      Wordless;
    var begun := BeginTurn(NO_POLICY, births, entries, frames, content);
    var st := Streamed(births, entries, frames, content, before);
    var at := Suppressed(births, entries, frames, content, before);
    BeginKeeps(births, entries, frames, content, off);
    ChunksKeep(births, begun, before, off);
    SuppressKeeps(st, off);
    SuppressGrows(st, off);
    SuppressIsWordless(st);
    SplitAtSuppress(births, begun, before, after);
    var streamed := ProcessChunks(NO_POLICY, births, at, after);
    ChunksKeep(births, at, after, off);
    var end := RestGrows(births, at, after, dropped, off);
    GrewThrough(st, at, end);
    UnpackGrew(st, end);
    UnpackGrew(at, end);
    WordlessAndThenQuiet(st, at, end);
    AuthoredAreSuppressed(end, off + Unsent(streamed, dropped)
      + StrandedThought(DropChunk(NO_POLICY, streamed, dropped)));
  }

  /** From any point of a turn to its end: what is there only grows, and the end is at rest but for the turn's
    * mishaps. */
  lemma RestGrows(births: Births, at: Stream, after: seq<Chunk>, dropped: Option<Chunk>, off: set<nat>)
      returns (end: Stream)
    requires Inv(at, off, false) && Spoken(at)
    requires (forall c :: c in after ==> Ordinary(c)) && (dropped.Some? ==> Ordinary(dropped.value))
    ensures var streamed := ProcessChunks(NO_POLICY, births, at, after);
            var left := DropChunk(NO_POLICY, streamed, dropped);
            && end == EndTurn(NO_POLICY, births, left) && Grew(at, end)
            && Inv(end, off + Unsent(streamed, dropped) + StrandedThought(left), true)
            && end.thinkingIndex.None? && end.assistantIndex.None?
  {
    hide ProcessChunks, EndTurn, Grew, Inv, Spoken;
    var streamed := ProcessChunks(NO_POLICY, births, at, after);
    ChunksKeep(births, at, after, off);
    ChunksGrow(births, at, after, off);
    var left := DropChunk(NO_POLICY, streamed, dropped);
    DropKeeps(streamed, dropped, off);
    DropGrows(streamed, dropped, off);
    EndGrows(births, left, off + Unsent(streamed, dropped));
    EndKeeps(births, left, off + Unsent(streamed, dropped));
    end := EndTurn(NO_POLICY, births, left);
    GrewThrough(at, streamed, left);
    GrewThrough(at, left, end);
  }

  lemma WordlessAndThenQuiet(st: Stream, at: Stream, end: Stream)
    requires SentWordless(st, at) && |at.frames| <= |end.frames| && end.frames[..|at.frames|] == at.frames
    requires QuietSince(end, |at.frames|)
    ensures WordlessSince(end, |st.frames|)
  {
    forall k | |st.frames| <= k < |end.frames| && end.frames[k].index in end.authored
      ensures Wordless(end.frames[k])
    {
      if k < |at.frames| {
        assert end.frames[k] == end.frames[..|at.frames|][k] == at.frames[k];
      }
    }
  }

  /** What the tools write into the session for one chunk, from index n on. */
  function Written(births: Births, n: nat, chunk: Chunk): seq<Entry> {
    match chunk
    case ToolUse(name, input) => [ToolEntry(name, input, Some(births.at(n)), false)]
    case ToolResult(supplied) => supplied
    case _ => []
  }

  /** Every tool entry of a turn, stored before a suppression or after it or with none, is at the turn's end as it was
    * given. */
  lemma ToolEntriesStay(births: Births, entries: seq<Entry>, frames: seq<Frame>, content: string,
      before: seq<Chunk>, chunk: Chunk, after: seq<Chunk>, dropped: Option<Chunk>, off: set<nat>)
    requires AtRest(entries, frames, off) && Ordinary(chunk)
    requires (forall c :: c in before ==> Ordinary(c)) && (forall c :: c in after ==> Ordinary(c))
    requires dropped.Some? ==> Ordinary(dropped.value)
    ensures var st := Streamed(births, entries, frames, content, before);
            var end := Turn(NO_POLICY, births, entries, frames, content, before + [chunk] + after, dropped);
            var n := |st.entries|; var written := Written(births, n, chunk);
            && n + |written| <= |end.entries| && end.entries[n..n + |written|] == written
            && forall i :: n <= i < n + |written| ==> i !in end.authored
  {
    hide AtRest, BeginTurn, ProcessChunks, ProcessChunk, EndTurn, Grew, Inv, Spoken;
    var begun := BeginTurn(NO_POLICY, births, entries, frames, content);
    var st := Streamed(births, entries, frames, content, before);
    var next := ProcessChunk(NO_POLICY, births, st, chunk);
    BeginKeeps(births, entries, frames, content, off);
    ChunksKeep(births, begun, before, off);
    ChunkKeeps(births, st, chunk, off);
    ChunkGrows(births, st, chunk, off);
    UnpackGrew(st, next);
    var end := RestGrows(births, next, after, dropped, off);
    SplitAt(births, begun, before, chunk, after);
    UnpackGrew(next, end);
    ToolStepWrites(births, st, chunk, off);
    var n, written := |st.entries|, Written(births, |st.entries|, chunk);
    forall i | n <= i < n + |written|
      ensures i !in end.authored && end.entries[i] == written[i - n]
    {
      assert i !in next.authored && next.entries[i] == written[i - n];
    }
  }

  lemma ToolStepWrites(births: Births, st: Stream, chunk: Chunk, off: set<nat>)
    requires Inv(st, off, false) && |st.entries| <= |ProcessChunk(NO_POLICY, births, st, chunk).entries|
    ensures var next := ProcessChunk(NO_POLICY, births, st, chunk);
            var n := |st.entries|; var written := Written(births, n, chunk);
            && n + |written| <= |next.entries|
            && forall i :: n <= i < n + |written| ==> i !in next.authored && next.entries[i] == written[i - n]
  {
    hide Seen, Life, IndexOk, Distinct, NothingAhead, ProcessText, ProcessSuppress, ProcessStop;
    if chunk.ToolResult? {
      StoredAreSupplied(st.entries, chunk.supplied);
      StoringAppends(NO_POLICY, st.entries, chunk.supplied);
      ForwardLeaves(st.(entries := StoreSupplied(NO_POLICY, st.entries, chunk.supplied)), |st.entries|);
    }
  }

  lemma UnpackGrew(st: Stream, next: Stream)
    requires Grew(st, next)
    ensures st.suppressOutput ==> next.suppressOutput && QuietSince(next, |st.frames|)
    ensures |st.frames| <= |next.frames| && next.frames[..|st.frames|] == st.frames && |st.entries| <= |next.entries|
    ensures forall i: nat :: i < |st.entries| && i !in st.authored ==>
      i !in next.authored && next.entries[i] == st.entries[i]
  {
  }

  lemma AuthoredAreSuppressed(end: Stream, off: set<nat>)
    requires Inv(end, off, true) && end.thinkingIndex.None? && end.assistantIndex.None? && end.suppressOutput
    ensures forall i :: i in end.authored ==>
      i < |end.entries| && end.entries[i].ModelEntry? && end.entries[i].suppressed
  {
    RestAfter(end, off);
  }

  lemma SplitAt(births: Births, begun: Stream, before: seq<Chunk>, chunk: Chunk, after: seq<Chunk>)
    ensures ProcessChunks(NO_POLICY, births, begun, before + [chunk] + after)
         == ProcessChunks(NO_POLICY, births,
              ProcessChunk(NO_POLICY, births, ProcessChunks(NO_POLICY, births, begun, before), chunk), after)
  {
    hide ProcessChunk;
    var st := ProcessChunks(NO_POLICY, births, begun, before);
    assert before + [chunk] + after == before + ([chunk] + after);
    ProcessConcat(NO_POLICY, births, begun, before, [chunk] + after);
    ProcessConcat(NO_POLICY, births, st, [chunk], after);
    assert [chunk][1..] == [];
    assert ProcessChunks(NO_POLICY, births, st, [chunk]) == ProcessChunk(NO_POLICY, births, st, chunk);
  }

  lemma SplitAtSuppress(births: Births, begun: Stream, before: seq<Chunk>, after: seq<Chunk>)
    ensures ProcessChunks(NO_POLICY, births, begun, before + [SuppressOutput] + after)
         == ProcessChunks(NO_POLICY, births,
              ProcessSuppress(NO_POLICY, ProcessChunks(NO_POLICY, births, begun, before)), after)
  {
    hide ProcessChunks, ProcessSuppress;
    SplitAt(births, begun, before, SuppressOutput, after);
  }

  lemma DropGrows(st: Stream, dropped: Option<Chunk>, off: set<nat>)
    requires Inv(st, off, false)
    ensures Grew(st, DropChunk(NO_POLICY, st, dropped))
  {
    if dropped.Some? && dropped.value.ToolResult? {
      StoringGrows(st, dropped.value.supplied);
    }
  }
}
