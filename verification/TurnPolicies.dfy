/** What a live client and a resumed one agree on under any entry policy: the entries that are not the model's.
  *
  * The model's entries stream before a redactor has seen them, so a live client may hold more than was
  * stored. A user's, a tool's and an unknown role's entry is sent as it is stored, so under every policy
  * the two clients part over it only where it went unsent or was cleared.
  */
module TurnPolicies {
  import opened Wrappers
  import opened ThinkingTags
  import opened SessionEntries
  import opened Frames
  import opened StreamingTurn
  import opened TurnInvariant
  import opened TurnSteps
  import opened TurnTheorems

  /** The client holds what was stored, which may have been cleared since. */
  predicate AsStored(live: View, entry: Entry) {
    live.Held? && !live.entry.ModelEntry? && (entry == live.entry || entry == Cleared(live.entry))
  }

  predicate Known(entries: seq<Entry>, frames: seq<Frame>, unsent: set<nat>, i: nat)
    requires i < |entries|
  {
    !entries[i].ModelEntry? ==>
      if i in unsent then Seen(frames, i) == Unseen else AsStored(Seen(frames, i), entries[i])
  }

  /** Every entry that is not the model's was sent as it was stored, the `unsent` ones apart. */
  ghost predicate SentAsStored(entries: seq<Entry>, frames: seq<Frame>, unsent: set<nat>) {
    && (forall i :: i in unsent ==> i < |entries|)
    && (forall i: nat :: i >= |entries| ==> Seen(frames, i) == Unseen)
    && (forall i: nat :: i < |entries| ==> Known(entries, frames, unsent, i))
  }

  predicate HoldsModel(st: Stream, kind: Kind) {
    st.IndexOf(kind).Some? ==> st.IndexOf(kind).value < |st.entries| && st.entries[st.IndexOf(kind).value].ModelEntry?
  }

  ghost predicate Sound(st: Stream, unsent: set<nat>) {
    SentAsStored(st.entries, st.frames, unsent) && HoldsModel(st, Thought) && HoldsModel(st, Answer)
  }

  // ----- The model's own entries -----

  /** A step that touches one entry of the model's leaves the others as they are. */
  lemma ModelStep(st: Stream, next: Stream, unsent: set<nat>, k: nat)
    requires Sound(st, unsent)
    requires k < |next.entries| && next.entries[k].ModelEntry?
    requires |next.entries| == |st.entries| || k == |st.entries| == |next.entries| - 1
    requires forall i: nat :: i != k ==> Seen(next.frames, i) == Seen(st.frames, i)
    requires forall i: nat :: i < |st.entries| && i != k ==> next.entries[i] == st.entries[i]
    requires next.thinkingIndex.Some? ==> next.thinkingIndex == st.thinkingIndex || next.thinkingIndex == Some(k)
    requires next.assistantIndex.Some? ==> next.assistantIndex == st.assistantIndex || next.assistantIndex == Some(k)
    ensures Sound(next, unsent)
  {
    hide Seen, AsStored;
    forall i: nat | i < |next.entries|
      ensures Known(next.entries, next.frames, unsent, i)
    {
      if i != k {
        assert Known(st.entries, st.frames, unsent, i);
      }
    }
  }

  lemma OpenSound(policy: Policy, births: Births, st: Stream, kind: Kind, unsent: set<nat>)
    requires Usable(policy) && Sound(st, unsent) && st.IndexOf(kind).None?
    ensures Sound(OpenEntry(policy, births, st, kind), unsent)
  {
    hide Seen, Life, Sound;
    var next := OpenEntry(policy, births, st, kind);
    var k := |st.entries|;
    var frame := if st.suppressOutput then Skip(k) else Upsert(k, next.entries[k]);
    assert next.frames == st.Sent(frame).frames;
    SentReaches(st, frame);
    ModelStep(st, next, unsent, k);
  }

  lemma GrowSound(policy: Policy, st: Stream, kind: Kind, content: string, unsent: set<nat>)
    requires Usable(policy) && Sound(st, unsent) && st.IndexOf(kind).Some?
    ensures Sound(Grow(policy, st, kind, content), unsent)
  {
    hide Seen, Life, SentAsStored;
    var next := Grow(policy, st, kind, content);
    var k := st.IndexOf(kind).value;
    if !st.suppressOutput {
      SentReaches(st, Delta(k, content));
      assert next.frames == st.Sent(Delta(k, content)).frames;
    }
    ModelStep(st, next, unsent, k);
  }

  lemma SegmentSound(policy: Policy, births: Births, st: Stream, kind: Kind, content: string, unsent: set<nat>)
    requires Usable(policy) && Sound(st, unsent)
    ensures Sound(StreamSegment(policy, births, st, kind, content), unsent)
  {
    hide Sound;
    var open := if st.IndexOf(kind).Some? then st else OpenEntry(policy, births, st, kind);
    if st.IndexOf(kind).None? {
      OpenSound(policy, births, st, kind, unsent);
    }
    GrowSound(policy, open, kind, content, unsent);
  }

  lemma CommitSound(policy: Policy, st: Stream, kind: Kind, unsent: set<nat>)
    requires Usable(policy) && Sound(st, unsent)
    ensures Sound(CommitAndClear(policy, st, kind), unsent)
  {
    hide Seen, Life, SentAsStored;
    if st.IndexOf(kind).Some? {
      var next := CommitAndClear(policy, st, kind);
      var k := st.IndexOf(kind).value;
      if !st.suppressOutput {
        SentReaches(st, Commit(k));
        assert next.frames == st.Sent(Commit(k)).frames;
      }
      ModelStep(st, next, unsent, k);
    }
  }

  lemma CutOffSound(policy: Policy, st: Stream, kind: Kind, unsent: set<nat>)
    requires Usable(policy) && Sound(st, unsent)
    ensures Sound(CloseCutOff(policy, st, kind), unsent)
  {
    hide Seen, Life, SentAsStored, CommitAndClear;
    if st.IndexOf(kind).Some? {
      var k := st.IndexOf(kind).value;
      var marked := st.(entries := Apply(policy, st.entries, Truncates(k)));
      ModelStep(st, marked, unsent, k);
      if st.suppressOutput {
        CommitSound(policy, marked, kind, unsent);
      } else {
        var told := marked.Sent(Upsert(k, marked.entries[k]));
        SentReaches(marked, Upsert(k, marked.entries[k]));
        ModelStep(marked, told, unsent, k);
        CommitSound(policy, told, kind, unsent);
      }
    }
  }

  lemma HandleSegmentSound(policy: Policy, births: Births, st: Stream, segment: Segment, unsent: set<nat>)
    requires Usable(policy) && Sound(st, unsent)
    ensures Sound(HandleSegment(policy, births, st, segment), unsent)
  {
    hide Sound;
    if segment.kind.Thought? {
      SegmentSound(policy, births, st, Thought, segment.content, unsent);
    } else {
      CommitSound(policy, st, Thought, unsent);
      SegmentSound(policy, births, CommitAndClear(policy, st, Thought), Answer, segment.content, unsent);
    }
  }

  lemma {:induction false} HandleSegmentsSound(policy: Policy, births: Births, st: Stream, segments: seq<Segment>,
      unsent: set<nat>)
    requires Usable(policy) && Sound(st, unsent)
    ensures Sound(HandleSegments(policy, births, st, segments), unsent)
    decreases |segments|
  {
    hide Sound, HandleSegment;
    if segments != [] {
      HandleSegmentSound(policy, births, st, segments[0], unsent);
      HandleSegmentsSound(policy, births, HandleSegment(policy, births, st, segments[0]), segments[1..], unsent);
    }
  }

  /** Only the entries, the frames and the two open indices bear on it. */
  lemma AsideSound(st: Stream, next: Stream, unsent: set<nat>)
    requires Sound(st, unsent) && next.entries == st.entries && next.frames == st.frames
    requires next.thinkingIndex == st.thinkingIndex && next.assistantIndex == st.assistantIndex
    ensures Sound(next, unsent)
  {
    hide SentAsStored;
  }

  lemma FlushSound(policy: Policy, births: Births, st: Stream, unsent: set<nat>)
    requires Usable(policy) && Sound(st, unsent)
    ensures Sound(FlushHeldText(policy, births, st), unsent)
  {
    hide Sound;
    AsideSound(st, st.(buffer := ""), unsent);
    HandleSegmentsSound(policy, births, st.(buffer := ""), Emitted(KindFor(st.inside), st.buffer), unsent);
  }

  lemma CommitOpenSound(policy: Policy, st: Stream, unsent: set<nat>)
    requires Usable(policy) && Sound(st, unsent)
    ensures Sound(CommitOpenEntries(policy, st), unsent)
  {
    hide Sound;
    CommitSound(policy, st, Thought, unsent);
    CommitSound(policy, CommitAndClear(policy, st, Thought), Answer, unsent);
  }

  lemma {:induction false} BlankAllSound(st: Stream, unsent: set<nat>)
    requires Sound(st, unsent)
    ensures Sound(BlankAll(st), unsent)
    decreases |st.blankable|
  {
    hide Sound;
    if st.blankable != [] {
      BlankFirstSound(st, unsent);
      BlankAllSound(BlankFirst(st), unsent);
    }
  }

  lemma BlankFirstSound(st: Stream, unsent: set<nat>)
    requires Sound(st, unsent) && st.blankable != []
    ensures Sound(BlankFirst(st), unsent)
  {
    hide Seen, Life, SentAsStored;
    var k := st.blankable[0];
    var next := BlankFirst(st);
    if k < |st.entries| && st.entries[k].ModelEntry? {
      var blanked := Upsert(k, st.entries[k].(content := ""));
      SentReaches(st, blanked);
      assert next.frames == st.Sent(blanked).frames;
      ModelStep(st, next, unsent, k);
    }
  }

  // ----- Everyone else's -----

  /** One more entry, stored under the policy and not sent yet. */
  lemma AppendSound(policy: Policy, st: Stream, entry: Entry, unsent: set<nat>)
    requires Usable(policy) && Sound(st, unsent)
    ensures Sound(st.(entries := Append(policy, st.entries, entry)), unsent + {|st.entries|})
  {
    hide Seen, AsStored;
    var next := st.(entries := Append(policy, st.entries, entry));
    forall i: nat | i < |next.entries|
      ensures Known(next.entries, next.frames, unsent + {|st.entries|}, i)
    {
      if i < |st.entries| {
        assert Known(st.entries, st.frames, unsent, i);
      }
    }
  }

  /** Sending a stored entry settles it. */
  lemma SendSound(st: Stream, k: nat, unsent: set<nat>)
    requires k < |st.entries| && Sound(st, unsent)
    ensures Sound(st.Sent(Upsert(k, st.entries[k])), unsent - {k})
  {
    hide Seen, Life;
    var next := st.Sent(Upsert(k, st.entries[k]));
    SentReaches(st, Upsert(k, st.entries[k]));
    forall i: nat | i < |next.entries|
      ensures Known(next.entries, next.frames, unsent - {k}, i)
    {
      assert Known(st.entries, st.frames, unsent, i);
    }
  }

  lemma {:induction false} StoreSound(policy: Policy, st: Stream, supplied: seq<Entry>, unsent: set<nat>)
    requires Usable(policy) && Sound(st, unsent)
    ensures var next := st.(entries := StoreSupplied(policy, st.entries, supplied));
            Sound(next, unsent + Span(|st.entries|, |st.entries| + |supplied|))
    decreases |supplied|
  {
    hide Sound, Append;
    var k := |st.entries|;
    if supplied == [] {
      assert unsent + Span(k, k) == unsent;
    } else {
      AppendSound(policy, st, supplied[0], unsent);
      AppendsOne(policy, st.entries, supplied[0]);
      StoreSound(policy, st.(entries := Append(policy, st.entries, supplied[0])), supplied[1..], unsent + {k});
      assert unsent + {k} + Span(k + 1, k + |supplied|) == unsent + Span(k, k + |supplied|);
    }
  }

  lemma AppendsOne(policy: Policy, entries: seq<Entry>, entry: Entry)
    requires Usable(policy)
    ensures |Append(policy, entries, entry)| == |entries| + 1
  {
  }

  lemma {:induction false} ForwardSound(st: Stream, from: nat, unsent: set<nat>)
    requires from <= |st.entries| && Sound(st, unsent + Span(from, |st.entries|))
    requires forall i :: i in unsent ==> i < from
    ensures Sound(ForwardFrom(st, from), unsent)
    decreases |st.entries| - from
  {
    hide Sound;
    var behind := unsent + Span(from, |st.entries|);
    if from == |st.entries| {
      assert behind == unsent;
    } else {
      SendSound(st, from, behind);
      assert behind - {from} == unsent + Span(from + 1, |st.entries|);
      ForwardSound(st.Sent(Upsert(from, st.entries[from])), from + 1, unsent);
    }
  }

  lemma UnsentAreStored(st: Stream, unsent: set<nat>)
    requires Sound(st, unsent)
    ensures forall i :: i in unsent ==> i < |st.entries|
  {
  }

  lemma ToolUseSound(policy: Policy, births: Births, st: Stream, name: string, input: map<string, string>,
      unsent: set<nat>)
    requires Usable(policy) && Sound(st, unsent)
    ensures Sound(ProcessToolUse(policy, births, st, name, input), unsent)
  {
    hide Sound, Append;
    var k := |st.entries|;
    var entry := ToolEntry(name, input, Some(births.at(k)), false);
    AppendSound(policy, st, entry, unsent);
    AppendsOne(policy, st.entries, entry);
    SendSound(st.(entries := Append(policy, st.entries, entry)), k, unsent + {k});
    UnsentAreStored(st, unsent);
    assert unsent + {k} - {k} == unsent;
  }

  lemma ToolResultSound(policy: Policy, st: Stream, supplied: seq<Entry>, unsent: set<nat>)
    requires Usable(policy) && Sound(st, unsent)
    ensures Sound(ProcessToolResult(policy, st, supplied), unsent)
  {
    hide Sound;
    StoringAppends(policy, st.entries, supplied);
    StoreSound(policy, st, supplied, unsent);
    UnsentAreStored(st, unsent);
    ForwardSound(st.(entries := StoreSupplied(policy, st.entries, supplied)), |st.entries|, unsent);
  }

  // ----- The turn -----

  lemma ChunkSound(policy: Policy, births: Births, st: Stream, chunk: Chunk, unsent: set<nat>)
    requires Usable(policy) && Sound(st, unsent)
    ensures Sound(ProcessChunk(policy, births, st, chunk), unsent)
  {
    hide Sound;
    match chunk
    case TextChunk(text) =>
      var d := Drain(st.buffer + text, st.inside);
      AsideSound(st, st.(buffer := d.buffer, inside := d.inside), unsent);
      HandleSegmentsSound(policy, births, st.(buffer := d.buffer, inside := d.inside), d.segments, unsent);
    case ToolUse(name, input) => ToolUseSound(policy, births, st, name, input, unsent);
    case ToolResult(supplied) => ToolResultSound(policy, st, supplied, unsent);
    case SuppressOutput =>
      CommitOpenSound(policy, st, unsent);
      BlankAllSound(CommitOpenEntries(policy, st), unsent);
      AsideSound(BlankAll(CommitOpenEntries(policy, st)), ProcessSuppress(policy, st), unsent);
    case Stop =>
      FlushSound(policy, births, st, unsent);
      CommitOpenSound(policy, FlushHeldText(policy, births, st), unsent);
  }

  lemma {:induction false} ChunksSound(policy: Policy, births: Births, st: Stream, chunks: seq<Chunk>, unsent: set<nat>)
    requires Usable(policy) && Sound(st, unsent)
    ensures Sound(ProcessChunks(policy, births, st, chunks), unsent)
    decreases |chunks|
  {
    hide Sound, ProcessChunk;
    if chunks != [] {
      ChunkSound(policy, births, st, chunks[0], unsent);
      ChunksSound(policy, births, ProcessChunk(policy, births, st, chunks[0]), chunks[1..], unsent);
    }
  }

  /** The run's end closes what streams and may clear the oldest entries; nothing of it is sent. */
  lemma ClosingSound(policy: Policy, st: Stream, unsent: set<nat>)
    requires Usable(policy) && Sound(st, unsent)
    ensures Sound(st.(entries := TurnClosed(policy, st.entries)), unsent)
  {
    hide Seen, Finalised, Cleared;
    var next := st.(entries := TurnClosed(policy, st.entries));
    forall i: nat | i < |next.entries|
      ensures Known(next.entries, next.frames, unsent, i)
    {
      assert Known(st.entries, st.frames, unsent, i);
      ClosingOne(policy, st.entries, i);
      if !next.entries[i].ModelEntry? {
        ClearedOnce(st.entries[i]);
      }
    }
    if st.thinkingIndex.Some? {
      ClosingOne(policy, st.entries, st.thinkingIndex.value);
    }
    if st.assistantIndex.Some? {
      ClosingOne(policy, st.entries, st.assistantIndex.value);
    }
  }

  lemma ClearedOnce(entry: Entry)
    ensures Cleared(entry).cleared && RoleOf(Cleared(entry)) == RoleOf(entry)
  {
  }

  lemma ClosingOne(policy: Policy, entries: seq<Entry>, i: nat)
    requires Usable(policy) && i < |entries|
    ensures var next := TurnClosed(policy, entries);
            && |next| == |entries| && next[i].ModelEntry? == entries[i].ModelEntry?
            && (!entries[i].ModelEntry? ==> next[i] == entries[i] || next[i] == Kept(entries[i]))
  {
    var short := CutShort(policy, entries[i]);
    assert RoleOf(short) == RoleOf(entries[i]);
    assert RoleOf(Kept(short)) == RoleOf(short);
  }

  lemma BeginSound(policy: Policy, births: Births, entries: seq<Entry>, frames: seq<Frame>, content: string,
      unsent: set<nat>)
    requires Usable(policy) && SentAsStored(entries, frames, unsent)
    ensures Sound(BeginTurn(policy, births, entries, frames, content), unsent)
  {
    hide SentAsStored, Append;
    var k := |entries|;
    var was := Stream(entries, frames, None, None, false, [], {}, "", false);
    var user := UserEntry(content, Some(births.at(k)), false);
    AppendSound(policy, was, user, unsent);
    StoredAsMade(policy, entries, user);
    var stored := was.(entries := Append(policy, entries, user));
    SendSound(stored, k, unsent + {k});
    UnsentAreStored(was, unsent);
    assert unsent + {k} - {k} == unsent;
    AsideSound(stored.Sent(Upsert(k, user)), BeginTurn(policy, births, entries, frames, content), unsent);
  }

  /** No redactor is shown what the user wrote. */
  lemma StoredAsMade(policy: Policy, entries: seq<Entry>, user: Entry)
    requires Usable(policy) && user.UserEntry?
    ensures Append(policy, entries, user) == entries + [user]
  {
  }

  lemma EndSound(policy: Policy, births: Births, st: Stream, unsent: set<nat>)
    requires Usable(policy) && Sound(st, unsent)
    ensures Sound(EndTurn(policy, births, st), unsent)
  {
    hide Sound, CloseCutOff, FlushHeldText, TurnClosed;
    var closed := st.(entries := TurnClosed(policy, st.entries));
    ClosingSound(policy, st, unsent);
    FlushSound(policy, births, closed, unsent);
    var flushed := FlushHeldText(policy, births, closed);
    CutOffSound(policy, flushed, Thought, unsent);
    CutOffSound(policy, CloseCutOff(policy, flushed, Thought), Answer, unsent);
  }

  lemma DropSound(policy: Policy, st: Stream, dropped: Option<Chunk>, unsent: set<nat>)
    requires Usable(policy) && Sound(st, unsent)
    ensures Sound(DropChunk(policy, st, dropped), unsent + Unsent(st, dropped))
  {
    hide Sound;
    assert unsent + {} == unsent;
    if dropped.Some? && dropped.value.ToolResult? {
      StoreSound(policy, st, dropped.value.supplied, unsent);
    }
  }

  function UnsentBy(policy: Policy, births: Births, entries: seq<Entry>, frames: seq<Frame>, content: string,
      chunks: seq<Chunk>, dropped: Option<Chunk>): set<nat>
    requires Usable(policy)
  {
    Unsent(ProcessChunks(policy, births, BeginTurn(policy, births, entries, frames, content), chunks), dropped)
  }

  lemma TurnSendsAsStored(policy: Policy, births: Births, entries: seq<Entry>, frames: seq<Frame>, content: string,
      chunks: seq<Chunk>, dropped: Option<Chunk>, unsent: set<nat>)
    requires Usable(policy) && SentAsStored(entries, frames, unsent)
    ensures var end := Turn(policy, births, entries, frames, content, chunks, dropped);
            SentAsStored(end.entries, end.frames,
              unsent + UnsentBy(policy, births, entries, frames, content, chunks, dropped))
  {
    hide SentAsStored, HoldsModel, ProcessChunks, BeginTurn, EndTurn, DropChunk, Unsent;
    var begun := BeginTurn(policy, births, entries, frames, content);
    BeginSound(policy, births, entries, frames, content, unsent);
    ChunksSound(policy, births, begun, chunks, unsent);
    var streamed := ProcessChunks(policy, births, begun, chunks);
    DropSound(policy, streamed, dropped, unsent);
    EndSound(policy, births, DropChunk(policy, streamed, dropped), unsent + Unsent(streamed, dropped));
  }

  // ----- A conversation -----

  function ConverseUnder(policy: Policy, entries: seq<Entry>, frames: seq<Frame>, exchanges: seq<Exchange>):
      (seq<Entry>, seq<Frame>)
    requires Usable(policy)
    decreases |exchanges|
  {
    if exchanges == [] then (entries, frames)
    else
      var x := exchanges[0];
      var end := Turn(policy, x.births, entries, frames, x.content, x.chunks, x.dropped);
      ConverseUnder(policy, end.entries, end.frames, exchanges[1..])
  }

  function AllUnsent(policy: Policy, entries: seq<Entry>, frames: seq<Frame>, exchanges: seq<Exchange>): set<nat>
    requires Usable(policy)
    decreases |exchanges|
  {
    if exchanges == [] then {}
    else
      var x := exchanges[0];
      var end := Turn(policy, x.births, entries, frames, x.content, x.chunks, x.dropped);
      UnsentBy(policy, x.births, entries, frames, x.content, x.chunks, x.dropped)
      + AllUnsent(policy, end.entries, end.frames, exchanges[1..])
  }

  lemma {:induction false} ConversationSendsAsStored(policy: Policy, entries: seq<Entry>, frames: seq<Frame>,
      exchanges: seq<Exchange>, unsent: set<nat>)
    requires Usable(policy) && SentAsStored(entries, frames, unsent)
    ensures var (last, log) := ConverseUnder(policy, entries, frames, exchanges);
            SentAsStored(last, log, unsent + AllUnsent(policy, entries, frames, exchanges))
    decreases |exchanges|
  {
    hide Turn, UnsentBy, SentAsStored;
    if exchanges == [] {
      assert unsent + {} == unsent;
    } else {
      var x := exchanges[0];
      TurnSendsAsStored(policy, x.births, entries, frames, x.content, x.chunks, x.dropped, unsent);
      var end := Turn(policy, x.births, entries, frames, x.content, x.chunks, x.dropped);
      var now := UnsentBy(policy, x.births, entries, frames, x.content, x.chunks, x.dropped);
      ConversationSendsAsStored(policy, end.entries, end.frames, exchanges[1..], unsent + now);
      var later := AllUnsent(policy, end.entries, end.frames, exchanges[1..]);
      assert unsent + now + later == unsent + (now + later);
    }
  }

  lemma PartsWhereClearedOrUnsent(entries: seq<Entry>, frames: seq<Frame>, unsent: set<nat>, i: nat)
    requires SentAsStored(entries, frames, unsent) && i < |entries| && !entries[i].ModelEntry?
    ensures Agree(Seen(frames, i), Seen(Replay(entries), i)) <==> i !in unsent && !entries[i].cleared
  {
    hide Seen, Replay;
    assert Known(entries, frames, unsent, i);
    SeenOfReplay(entries, i);
  }

  /** Whatever the policy and its redactor, and whatever the tools supplied: over a whole conversation a live client and
    * a resumed one agree on an entry that is not the model's if and only if it was sent and is not cleared. */
  lemma OthersAgreeUnderAnyPolicy(policy: Policy, exchanges: seq<Exchange>, i: nat)
    requires Usable(policy)
    ensures var (entries, frames) := ConverseUnder(policy, [], [], exchanges);
            i < |entries| && !entries[i].ModelEntry? ==>
              (Agree(Seen(frames, i), Seen(Replay(entries), i))
               <==> i !in AllUnsent(policy, [], [], exchanges) && !entries[i].cleared)
  {
    hide SentAsStored, Seen, Replay, Agree, ConverseUnder, AllUnsent;
    NothingIsSent();
    ConversationSendsAsStored(policy, [], [], exchanges, {});
    var (entries, frames) := ConverseUnder(policy, [], [], exchanges);
    var unsent := AllUnsent(policy, [], [], exchanges);
    assert {} + unsent == unsent;
    if i < |entries| && !entries[i].ModelEntry? {
      PartsWhereClearedOrUnsent(entries, frames, unsent, i);
    }
  }

  lemma NothingIsSent()
    ensures SentAsStored([], [], {})
  {
  }
}
