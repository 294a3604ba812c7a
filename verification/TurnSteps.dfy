/** Every chunk a provider can send keeps the turn's invariant. */
module TurnSteps {
  import opened Wrappers
  import opened ThinkingTags
  import opened SessionEntries
  import opened Frames
  import opened StreamingTurn
  import opened TurnInvariant

  // ----- Segments -----

  lemma HandleSegmentKeeps(births: Births, st: Stream, segment: Segment, off: set<nat>)
    requires Inv(st, off, false) && Spoken(st) && segment.content != ""
    ensures var next := HandleSegment(NO_POLICY, births, st, segment); Inv(next, off, false) && Spoken(next)
  {
    hide Seen, Life;
    if segment.kind.Thought? {
      StreamSegmentKeeps(births, st, Thought, segment.content, off, false);
    } else {
      OpenStreams(st, Thought, off);
      CommitKeeps(st, Thought, off, false);
      StreamSegmentKeeps(births, CommitAndClear(NO_POLICY, st, Thought), Answer, segment.content, off, false);
    }
  }

  lemma OpenStreams(st: Stream, kind: Kind, off: set<nat>)
    requires Inv(st, off, false)
    ensures st.IndexOf(kind).Some? ==> StreamingOk(st, st.IndexOf(kind).value)
  {
    if st.IndexOf(kind).Some? {
      assert IndexOk(st, off, false, st.IndexOf(kind).value);
    }
  }

  lemma {:induction false} HandleSegmentsKeep(births: Births, st: Stream, segments: seq<Segment>, off: set<nat>)
    requires Inv(st, off, false) && Spoken(st) && NoneEmpty(segments)
    ensures var next := HandleSegments(NO_POLICY, births, st, segments); Inv(next, off, false) && Spoken(next)
    decreases |segments|
  {
    if segments != [] {
      HandleSegmentKeeps(births, st, segments[0], off);
      HandleSegmentsKeep(births, HandleSegment(NO_POLICY, births, st, segments[0]), segments[1..], off);
    }
  }

  lemma CommitOpenKeeps(st: Stream, off: set<nat>)
    requires Inv(st, off, false) && Spoken(st)
    ensures var next := CommitOpenEntries(NO_POLICY, st);
            Inv(next, off, false) && Spoken(next) && next.thinkingIndex.None? && next.assistantIndex.None?
  {
    hide Seen, Life;
    OpenStreams(st, Thought, off);
    CommitKeeps(st, Thought, off, false);
    var mid := CommitAndClear(NO_POLICY, st, Thought);
    OpenStreams(mid, Answer, off);
    CommitKeeps(mid, Answer, off, false);
  }

  /** The parser's fields are no part of what the client sees. */
  lemma ParserIsAside(st: Stream, buffer: string, inside: bool, off: set<nat>, late: bool)
    requires Inv(st, off, late)
    ensures Inv(st.(buffer := buffer, inside := inside), off, late)
  {
    hide Seen, Life;
    var next := st.(buffer := buffer, inside := inside);
    forall i: nat | i < |next.entries|
      ensures IndexOk(next, off, late, i)
    {
      StaysOk(st, next, off, off, late, i);
    }
  }

  // ----- Tools -----

  lemma ToolUseKeeps(births: Births, st: Stream, name: string, input: map<string, string>, off: set<nat>)
    requires Inv(st, off, false) && Spoken(st)
    ensures var next := ProcessToolUse(NO_POLICY, births, st, name, input); Inv(next, off, false) && Spoken(next)
  {
    hide Seen, Life;
    var next := ProcessToolUse(NO_POLICY, births, st, name, input);
    var k := |st.entries|;
    SentReaches(st, Upsert(k, next.entries[k]));
    assert next.frames == st.Sent(Upsert(k, next.entries[k])).frames;
    OnlyAt(st, next, off, off, false, k);
  }

  /** An entry a tool may supply: finished, and neither cleared nor suppressed. */
  predicate Finished(entry: Entry) {
    !IsOpen(entry) && !IsHidden(entry)
  }

  function Span(from: nat, to: nat): (span: set<nat>)
    ensures forall i :: (i in span <==> from <= i < to)
    decreases if from < to then to - from else 0
  {
    if from >= to then {} else {from} + Span(from + 1, to)
  }

  /** Stored but not yet sent, so off until it is. */
  lemma {:induction false} StoringKeeps(st: Stream, supplied: seq<Entry>, off: set<nat>)
    requires Inv(st, off, false) && Spoken(st)
    requires forall e :: e in supplied ==> Finished(e)
    ensures var next := st.(entries := StoreSupplied(NO_POLICY, st.entries, supplied));
            Inv(next, off + Span(|st.entries|, |next.entries|), false) && Spoken(next)
    decreases |supplied|
  {
    hide Seen, Life;
    var next := st.(entries := StoreSupplied(NO_POLICY, st.entries, supplied));
    StoringAppends(NO_POLICY, st.entries, supplied);
    var k := |st.entries|;
    if supplied == [] {
      assert off + Span(k, k) == off;
    } else {
      assert Finished(supplied[0]);
      var one := st.(entries := Append(NO_POLICY, st.entries, supplied[0]));
      OnlyAt(st, one, off, off + {k}, false, k);
      StoringKeeps(one, supplied[1..], off + {k});
      assert off + {k} + Span(k + 1, |next.entries|) == off + Span(k, |next.entries|);
    }
  }

  lemma {:induction false} ForwardKeeps(st: Stream, from: nat, off: set<nat>)
    requires from <= |st.entries|
    requires Inv(st, off + Span(from, |st.entries|), false) && Spoken(st)
    requires forall i :: from <= i < |st.entries| ==> i !in st.authored && i !in off && Finished(st.entries[i])
    ensures var next := ForwardFrom(st, from); Inv(next, off, false) && Spoken(next)
    decreases |st.entries| - from
  {
    hide Seen, Life;
    var late := off + Span(from, |st.entries|);
    if from == |st.entries| {
      assert late == off;
    } else {
      var next := st.Sent(Upsert(from, st.entries[from]));
      assert IndexOk(st, late, false, from);
      SentReaches(st, Upsert(from, st.entries[from]));
      assert late - {from} == off + Span(from + 1, |st.entries|);
      OnlyAt(st, next, late, late - {from}, false, from);
      ForwardKeeps(next, from + 1, off);
    }
  }

  lemma ToolResultKeeps(st: Stream, supplied: seq<Entry>, off: set<nat>)
    requires Inv(st, off, false) && Spoken(st)
    requires forall e :: e in supplied ==> Finished(e)
    ensures var next := ProcessToolResult(NO_POLICY, st, supplied); Inv(next, off, false) && Spoken(next)
  {
    var stored := st.(entries := StoreSupplied(NO_POLICY, st.entries, supplied));
    StoringAppends(NO_POLICY, st.entries, supplied);
    StoringKeeps(st, supplied, off);
    StoredAreSupplied(st.entries, supplied);
    ForwardKeeps(stored, |st.entries|, off);
  }

  lemma {:induction false} StoredAreSupplied(entries: seq<Entry>, supplied: seq<Entry>)
    ensures StoreSupplied(NO_POLICY, entries, supplied) == entries + supplied
    decreases |supplied|
  {
    if supplied == [] {
      assert entries + [] == entries;
    } else {
      StoredAreSupplied(entries + [supplied[0]], supplied[1..]);
      assert entries + [supplied[0]] + supplied[1..] == entries + supplied;
    }
  }

  // ----- Suppression -----

  lemma BlankFirstKeeps(st: Stream, off: set<nat>)
    requires Inv(st, off, false) && st.thinkingIndex.None? && st.assistantIndex.None? && !st.suppressOutput
    requires st.blankable != []
    ensures Inv(BlankFirst(st), off, false)
  {
    hide Seen, Life;
    var next := BlankFirst(st);
    var k := st.blankable[0];
    assert k in st.blankable;
    assert IndexOk(st, off, false, k);
    SentReaches(st, Upsert(k, st.entries[k].(content := "")));
    assert next.frames == st.Sent(Upsert(k, st.entries[k].(content := ""))).frames;
    assert st.blankable == [k] + next.blankable;
    assert forall i :: i in next.blankable ==> i in st.blankable;
    OnlyAt(st, next, off, off, false, k);
  }

  lemma {:induction false} BlankAllKeeps(st: Stream, off: set<nat>)
    requires Inv(st, off, false) && st.thinkingIndex.None? && st.assistantIndex.None? && !st.suppressOutput
    ensures var next := BlankAll(st);
            && Inv(next, off, false) && next.blankable == [] && !next.suppressOutput
            && next.thinkingIndex.None? && next.assistantIndex.None?
    decreases |st.blankable|
  {
    if st.blankable != [] {
      BlankFirstKeeps(st, off);
      BlankAllKeeps(BlankFirst(st), off);
    }
  }

  lemma SuppressKeeps(st: Stream, off: set<nat>)
    requires Inv(st, off, false) && Spoken(st)
    ensures var next := ProcessSuppress(NO_POLICY, st); Inv(next, off, false) && Spoken(next)
  {
    hide Seen, Life;
    CommitOpenKeeps(st, off);
    var committed := CommitOpenEntries(NO_POLICY, st);
    var next := ProcessSuppress(NO_POLICY, st);
    if committed.suppressOutput {
      assert next == committed;
    } else {
      BlankAllKeeps(committed, off);
      var blanked := BlankAll(committed);
      forall i: nat | i < |next.entries|
        ensures IndexOk(next, off, false, i)
      {
        assert IndexOk(blanked, off, false, i);
      }
    }
  }

  // ----- Chunks -----

  predicate Ordinary(chunk: Chunk) {
    chunk.ToolResult? ==> forall e :: e in chunk.supplied ==> Finished(e)
  }

  lemma StopKeeps(births: Births, st: Stream, off: set<nat>)
    requires Inv(st, off, false) && Spoken(st)
    ensures var next := ProcessStop(NO_POLICY, births, st); Inv(next, off, false) && Spoken(next)
  {
    ParserIsAside(st, "", st.inside, off, false);
    HandleSegmentsKeep(births, st.(buffer := ""), Emitted(KindFor(st.inside), st.buffer), off);
    CommitOpenKeeps(FlushHeldText(NO_POLICY, births, st), off);
  }

  lemma ChunkKeeps(births: Births, st: Stream, chunk: Chunk, off: set<nat>)
    requires Inv(st, off, false) && Spoken(st) && Ordinary(chunk)
    ensures var next := ProcessChunk(NO_POLICY, births, st, chunk); Inv(next, off, false) && Spoken(next)
  {
    match chunk
    case TextChunk(text) =>
      var drained := Drain(st.buffer + text, st.inside);
      ParserIsAside(st, drained.buffer, drained.inside, off, false);
      HandleSegmentsKeep(births, st.(buffer := drained.buffer, inside := drained.inside), drained.segments, off);
    case ToolUse(name, input) => ToolUseKeeps(births, st, name, input, off);
    case ToolResult(supplied) => ToolResultKeeps(st, supplied, off);
    case SuppressOutput => SuppressKeeps(st, off);
    case Stop => StopKeeps(births, st, off);
  }

  lemma {:induction false} ChunksKeep(births: Births, st: Stream, chunks: seq<Chunk>, off: set<nat>)
    requires Inv(st, off, false) && Spoken(st)
    requires forall c :: c in chunks ==> Ordinary(c)
    ensures var next := ProcessChunks(NO_POLICY, births, st, chunks); Inv(next, off, false) && Spoken(next)
    decreases |chunks|
  {
    if chunks != [] {
      ChunkKeeps(births, st, chunks[0], off);
      ChunksKeep(births, ProcessChunk(NO_POLICY, births, st, chunks[0]), chunks[1..], off);
    }
  }
}
