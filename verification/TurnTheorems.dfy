/** How a turn ends, and what then holds of it and of a whole conversation. */
module TurnTheorems {
  import opened Wrappers
  import opened ThinkingTags
  import opened SessionEntries
  import opened Frames
  import opened StreamingTurn
  import opened TurnInvariant
  import opened TurnSteps

  // ----- The end of a turn -----

  /** The run closes what is still open before the handler hears of the end. */
  function RunClosed(st: Stream): Stream {
    st.(entries := TurnClosed(NO_POLICY, st.entries))
  }

  predicate Lags(st: Stream, kind: Kind)
    requires InRange(st)
  {
    st.IndexOf(kind).Some? ==> LaggingOk(st, st.IndexOf(kind).value)
  }

  lemma RunClosedKeeps(st: Stream, off: set<nat>)
    requires Inv(st, off, false) && Spoken(st)
    ensures var next := RunClosed(st);
            Inv(next, off, true) && Spoken(next) && Lags(next, Thought) && Lags(next, Answer)
  {
    hide Seen, Life;
    var next := RunClosed(st);
    forall i: nat | i < |next.entries|
      ensures IndexOk(next, off, true, i) && (IsOpenIndex(st, i) ==> LaggingOk(next, i))
    {
      assert IndexOk(st, off, false, i);
    }
  }

  /** A finished thought whose end no answer has marked yet, when a held-back tail is about to become answer text. */
  function StrandedThought(st: Stream): set<nat> {
    if !st.suppressOutput && st.thinkingIndex.Some? && !st.inside && st.buffer != "" then {st.thinkingIndex.value}
    else {}
  }

  lemma FlushIsOneSegment(policy: Policy, births: Births, st: Stream)
    requires Usable(policy)
    ensures FlushHeldText(policy, births, st)
         == if st.buffer == "" then st
            else HandleSegment(policy, births, st.(buffer := ""), Segment(KindFor(st.inside), st.buffer))
  {
    hide HandleSegment, KindFor;
    var segments := Emitted(KindFor(st.inside), st.buffer);
    var flushed := st.(buffer := "");
    if st.buffer != "" {
      var handled := HandleSegment(policy, births, flushed, segments[0]);
      assert HandleSegments(policy, births, flushed, segments)
        == HandleSegments(policy, births, handled, segments[1..]);
      assert segments[1..] == [];
      assert HandleSegments(policy, births, handled, []) == handled;
    } else {
      assert HandleSegments(policy, births, flushed, []) == flushed;
      assert flushed == st;
    }
  }

  lemma LateFlushKeeps(births: Births, st: Stream, off: set<nat>)
    requires Inv(st, off, true) && Spoken(st) && Lags(st, Thought)
    ensures var next := FlushHeldText(NO_POLICY, births, st); Inv(next, off + StrandedThought(st), true) && Spoken(next)
  {
    hide Seen, Life, IndexOk, Distinct, StreamSegment;
    var flushed := st.(buffer := "");
    ParserIsAside(st, "", st.inside, off, true);
    assert off + {} == off;
    FlushIsOneSegment(NO_POLICY, births, st);
    if st.buffer != "" {
      var segment := Segment(KindFor(st.inside), st.buffer);
      if st.inside {
        StreamSegmentKeeps(births, flushed, Thought, st.buffer, off, true);
      } else if st.thinkingIndex.Some? {
        CommitLags(flushed, Thought, off, st.thinkingIndex.value);
        StreamSegmentKeeps(births, CommitAndClear(NO_POLICY, flushed, Thought), Answer, st.buffer,
          off + StrandedThought(st), true);
      } else {
        StreamSegmentKeeps(births, flushed, Answer, st.buffer, off, true);
      }
    }
  }

  /** Cutting an entry off tells the client of the flag before it closes it, so the two agree again. */
  lemma CutOffKeeps(st: Stream, kind: Kind, off: set<nat>)
    requires Inv(st, off, true) && Spoken(st)
    ensures var next := CloseCutOff(NO_POLICY, st, kind);
            && Inv(next, off, true) && Spoken(next)
            && next.IndexOf(kind).None? && next.IndexOf(Other(kind)) == st.IndexOf(Other(kind))
  {
    hide Seen, Life;
    if st.IndexOf(kind).Some? {
      var k := st.IndexOf(kind).value;
      var next := CloseCutOff(NO_POLICY, st, kind);
      assert IndexOk(st, off, true, k);
      CutOffElsewhere(st, kind, off, k);
      CutOffAtIndex(st, kind, off, k);
      OnlyAt(st, next, off, off, true, k);
    }
  }

  lemma CutOffFrames(st: Stream, kind: Kind, k: nat)
    requires st.IndexOf(kind) == Some(k) && k < |st.entries|
    ensures var next := CloseCutOff(NO_POLICY, st, kind);
            if st.suppressOutput then next.frames == st.frames
            else next.frames == st.Sent(Upsert(k, Truncated(st.entries[k]))).Sent(Commit(k)).frames
    ensures var next := CloseCutOff(NO_POLICY, st, kind);
            next.entries == st.entries[k := Committed(NO_POLICY, Truncated(st.entries[k]))]
  {
  }

  lemma CutOffElsewhere(st: Stream, kind: Kind, off: set<nat>, k: nat)
    requires Inv(st, off, true) && Spoken(st) && st.IndexOf(kind) == Some(k)
    ensures var next := CloseCutOff(NO_POLICY, st, kind);
            && InRange(next) && Distinct(next.blankable) && (next.suppressOutput ==> next.blankable == [])
            && NothingAhead(next) && |next.entries| == |st.entries| && next.authored == st.authored && Spoken(next)
            && !IsOpenIndex(next, k)
            && (forall i: nat :: i < |next.entries| && i != k ==> SameAt(st, next, i))
  {
    hide Seen, Life, StreamingOk, LaggingOk, ClosedOk, Committed;
    var next := CloseCutOff(NO_POLICY, st, kind);
    assert IndexOk(st, off, true, k);
    CutOffFrames(st, kind, k);
    CommitInRange(st, kind, off, true, k);
    assert next.blankable == CommitAndClear(NO_POLICY, st, kind).blankable;
    if !st.suppressOutput {
      var upsert := Upsert(k, Truncated(st.entries[k]));
      SentReaches(st, upsert);
      SentReaches(st.Sent(upsert), Commit(k));
    }
    CutOffSpeaks(st, kind, k);
  }

  lemma CutOffSpeaks(st: Stream, kind: Kind, k: nat)
    requires InRange(st) && Spoken(st) && st.IndexOf(kind) == Some(k)
    ensures var next := CloseCutOff(NO_POLICY, st, kind); InRange(next) ==> Spoken(next)
  {
    CutOffFrames(st, kind, k);
  }

  lemma CutOffAtIndex(st: Stream, kind: Kind, off: set<nat>, k: nat)
    requires Inv(st, off, true) && Spoken(st) && st.IndexOf(kind) == Some(k)
    ensures var next := CloseCutOff(NO_POLICY, st, kind);
            |next.entries| == |st.entries| && (!IsOpenIndex(next, k) ==> IndexOk(next, off, true, k))
  {
    hide Seen, Life, Distinct, NothingAhead;
    CutOffFrames(st, kind, k);
    assert IndexOk(st, off, true, k);
    if !st.suppressOutput {
      var upsert := Upsert(k, Truncated(st.entries[k]));
      SentReaches(st, upsert);
      SentReaches(st.Sent(upsert), Commit(k));
    }
  }

  // ----- A whole turn -----

  /** Between turns: nothing streams, and exactly the `off` indices show a live client other than what a resume
    * replays. */
  ghost predicate AtRest(entries: seq<Entry>, frames: seq<Frame>, off: set<nat>) {
    && (forall i :: i in off ==> i < |entries|)
    && (forall i: nat :: i >= |entries| ==> Seen(frames, i) == Unseen && Life(frames, i) == Fresh)
    && (forall i: nat :: i < |entries| ==>
          !IsOpen(entries[i]) && (i in off <==> !Faithful(Seen(frames, i), entries[i])))
  }

  lemma BeginKeeps(births: Births, entries: seq<Entry>, frames: seq<Frame>, content: string, off: set<nat>)
    requires AtRest(entries, frames, off)
    ensures var st := BeginTurn(NO_POLICY, births, entries, frames, content); Inv(st, off, false) && Spoken(st)
  {
    hide Seen, Life;
    var st := BeginTurn(NO_POLICY, births, entries, frames, content);
    var was := Stream(entries, frames, None, None, false, [], {}, "", false);
    forall i: nat | i < |entries|
      ensures IndexOk(was, off, false, i)
    {
    }
    SentReaches(was, Upsert(|entries|, st.entries[|entries|]));
    assert st.frames == was.Sent(Upsert(|entries|, st.entries[|entries|])).frames;
    OnlyAt(was, st, off, off, false, |entries|);
  }

  /** What the orchestrator stored for a chunk nobody forwarded. */
  function Unsent(st: Stream, dropped: Option<Chunk>): set<nat> {
    if dropped.Some? && dropped.value.ToolResult? then Span(|st.entries|, |st.entries| + |dropped.value.supplied|)
    else {}
  }

  lemma DropKeeps(st: Stream, dropped: Option<Chunk>, off: set<nat>)
    requires Inv(st, off, false) && Spoken(st)
    requires dropped.Some? ==> Ordinary(dropped.value)
    ensures var next := DropChunk(NO_POLICY, st, dropped); Inv(next, off + Unsent(st, dropped), false) && Spoken(next)
  {
    assert off + {} == off;
    if dropped.Some? && dropped.value.ToolResult? {
      StoringKeeps(st, dropped.value.supplied, off);
      StoringAppends(NO_POLICY, st.entries, dropped.value.supplied);
    }
  }

  /** The turn before its end: every chunk handled, and what was dropped stored. */
  function Streamed(births: Births, entries: seq<Entry>, frames: seq<Frame>, content: string,
      chunks: seq<Chunk>): Stream {
    ProcessChunks(NO_POLICY, births, BeginTurn(NO_POLICY, births, entries, frames, content), chunks)
  }

  /** The indices a turn leaves a live client and a resumed one disagreeing on. */
  function Mishaps(st: Stream, dropped: Option<Chunk>): set<nat> {
    StrandedThought(st) + Unsent(st, dropped)
  }

  lemma EndKeeps(births: Births, st: Stream, off: set<nat>)
    requires Inv(st, off, false) && Spoken(st)
    ensures var end := EndTurn(NO_POLICY, births, st);
            Inv(end, off + StrandedThought(st), true) && end.thinkingIndex.None? && end.assistantIndex.None?
  {
    hide Inv, Spoken, InRange, CloseCutOff, FlushHeldText;
    var closed := RunClosed(st);
    RunClosedKeeps(st, off);
    assert StrandedThought(closed) == StrandedThought(st);
    LateFlushKeeps(births, closed, off);
    var flushed := FlushHeldText(NO_POLICY, births, closed);
    var off' := off + StrandedThought(st);
    CutOffKeeps(flushed, Thought, off');
    CutOffKeeps(CloseCutOff(NO_POLICY, flushed, Thought), Answer, off');
  }

  /** With nothing left open, the invariant is what a turn's end is meant to leave. */
  lemma RestAfter(end: Stream, off: set<nat>)
    requires Inv(end, off, true) && end.thinkingIndex.None? && end.assistantIndex.None?
    ensures AtRest(end.entries, end.frames, off)
    ensures forall i :: i in end.authored ==> i < |end.entries| && AuthoredOk(end, off, i)
  {
    hide Seen, Life;
    forall i: nat | i < |end.entries|
      ensures !IsOpen(end.entries[i]) && (i in off <==> !Faithful(Seen(end.frames, i), end.entries[i]))
      ensures i in end.authored ==> AuthoredOk(end, off, i)
    {
      assert IndexOk(end, off, true, i);
    }
  }

  /** The turn, whatever its chunks and however it ended: exactly its mishaps are left disagreeing. */
  lemma TurnKeeps(births: Births, entries: seq<Entry>, frames: seq<Frame>, content: string,
      chunks: seq<Chunk>, dropped: Option<Chunk>, off: set<nat>)
    requires AtRest(entries, frames, off)
    requires (forall c :: c in chunks ==> Ordinary(c)) && (dropped.Some? ==> Ordinary(dropped.value))
    ensures var end := Turn(NO_POLICY, births, entries, frames, content, chunks, dropped);
            var off' := off + Mishaps(Streamed(births, entries, frames, content, chunks), dropped);
            && Inv(end, off', true) && end.thinkingIndex.None? && end.assistantIndex.None?
            && AtRest(end.entries, end.frames, off')
  {
    hide Inv, Spoken, InRange, AtRest, BeginTurn, ProcessChunks, EndTurn;
    var begun := BeginTurn(NO_POLICY, births, entries, frames, content);
    var st := Streamed(births, entries, frames, content, chunks);
    BeginKeeps(births, entries, frames, content, off);
    ChunksKeep(births, begun, chunks, off);
    DropKeeps(st, dropped, off);
    var left := DropChunk(NO_POLICY, st, dropped);
    assert StrandedThought(left) == StrandedThought(st);
    EndKeeps(births, left, off + Unsent(st, dropped));
    assert off + Unsent(st, dropped) + StrandedThought(st) == off + Mishaps(st, dropped);
    RestAfter(Turn(NO_POLICY, births, entries, frames, content, chunks, dropped), off + Mishaps(st, dropped));
  }

  /** Agreement, exactly: after a turn that began in agreement, a live client and a client that resumes hold the same
    * thing at every index if and only if no thought was stranded and no stored tool entry went unsent. */
  lemma LiveAgreesWithReplay(births: Births, entries: seq<Entry>, frames: seq<Frame>, content: string,
      chunks: seq<Chunk>, dropped: Option<Chunk>)
    requires AtRest(entries, frames, {})
    requires (forall c :: c in chunks ==> Ordinary(c)) && (dropped.Some? ==> Ordinary(dropped.value))
    ensures var end := Turn(NO_POLICY, births, entries, frames, content, chunks, dropped);
            (forall i: nat :: Agree(Seen(end.frames, i), Seen(Replay(end.entries), i)))
            <==> Mishaps(Streamed(births, entries, frames, content, chunks), dropped) == {}
  {
    hide Turn, Streamed, Mishaps, Seen, Agree, Faithful;
    TurnKeeps(births, entries, frames, content, chunks, dropped, {});
    var end := Turn(NO_POLICY, births, entries, frames, content, chunks, dropped);
    var mishaps := Mishaps(Streamed(births, entries, frames, content, chunks), dropped);
    assert {} + mishaps == mishaps;
    RestAgrees(end.entries, end.frames, mishaps);
    if mishaps != {} {
      var i :| i in mishaps;
      assert !Agree(Seen(end.frames, i), Seen(Replay(end.entries), i));
    }
  }

  lemma RestAgrees(entries: seq<Entry>, frames: seq<Frame>, off: set<nat>)
    requires AtRest(entries, frames, off)
    ensures forall i: nat :: i in off <==> !Agree(Seen(frames, i), Seen(Replay(entries), i))
  {
    hide Seen, Replay, ReplayEntry;
    forall i: nat
      ensures i in off <==> !Agree(Seen(frames, i), Seen(Replay(entries), i))
    {
      if i < |entries| {
        FaithfulIsAgreement(Seen(frames, i), entries, i);
      } else {
        SeenOfReplay(entries, i);
      }
    }
  }

  /** Frame grammar: each entry the handler opened was skipped, or went upsert, deltas, at most one cut-off upsert, one
    * commit and at most one retraction; it was hidden or retracted exactly when a resume skips it. */
  lemma FramesFollowTheGrammar(births: Births, entries: seq<Entry>, frames: seq<Frame>, content: string,
      chunks: seq<Chunk>, dropped: Option<Chunk>, off: set<nat>)
    requires AtRest(entries, frames, off)
    requires (forall c :: c in chunks ==> Ordinary(c)) && (dropped.Some? ==> Ordinary(dropped.value))
    ensures var end := Turn(NO_POLICY, births, entries, frames, content, chunks, dropped);
            forall i :: i in end.authored ==>
              && i < |end.entries| && end.entries[i].ModelEntry? && end.entries[i].content != ""
              && (Life(end.frames, i).Done? || Life(end.frames, i).Hidden? || Life(end.frames, i).Blanked?)
              && (Life(end.frames, i).Done? <==> !IsHidden(end.entries[i]))
  {
    hide Turn, Streamed, Mishaps, Life, Inv, AtRest;
    TurnKeeps(births, entries, frames, content, chunks, dropped, off);
    RestAfter(Turn(NO_POLICY, births, entries, frames, content, chunks, dropped),
              off + Mishaps(Streamed(births, entries, frames, content, chunks), dropped));
  }

  // ----- A whole conversation -----

  datatype Exchange = Exchange(births: Births, content: string, chunks: seq<Chunk>, dropped: Option<Chunk>)

  predicate OrdinaryExchange(x: Exchange) {
    (forall c :: c in x.chunks ==> Ordinary(c)) && (x.dropped.Some? ==> Ordinary(x.dropped.value))
  }

  function Converse(entries: seq<Entry>, frames: seq<Frame>, exchanges: seq<Exchange>): (seq<Entry>, seq<Frame>)
    decreases |exchanges|
  {
    if exchanges == [] then (entries, frames)
    else
      var x := exchanges[0];
      var end := Turn(NO_POLICY, x.births, entries, frames, x.content, x.chunks, x.dropped);
      Converse(end.entries, end.frames, exchanges[1..])
  }

  function AllMishaps(entries: seq<Entry>, frames: seq<Frame>, exchanges: seq<Exchange>): set<nat>
    decreases |exchanges|
  {
    if exchanges == [] then {}
    else
      var x := exchanges[0];
      var end := Turn(NO_POLICY, x.births, entries, frames, x.content, x.chunks, x.dropped);
      Mishaps(Streamed(x.births, entries, frames, x.content, x.chunks), x.dropped)
      + AllMishaps(end.entries, end.frames, exchanges[1..])
  }

  lemma {:induction false} ConversationKeeps(entries: seq<Entry>, frames: seq<Frame>, exchanges: seq<Exchange>,
      off: set<nat>)
    requires AtRest(entries, frames, off)
    requires forall x :: x in exchanges ==> OrdinaryExchange(x)
    ensures var (last, log) := Converse(entries, frames, exchanges);
            AtRest(last, log, off + AllMishaps(entries, frames, exchanges))
    decreases |exchanges|
  {
    hide Turn, Streamed, Mishaps, AtRest;
    if exchanges == [] {
      assert off + {} == off;
    } else {
      var x := exchanges[0];
      assert OrdinaryExchange(x);
      TurnKeeps(x.births, entries, frames, x.content, x.chunks, x.dropped, off);
      var end := Turn(NO_POLICY, x.births, entries, frames, x.content, x.chunks, x.dropped);
      var now := Mishaps(Streamed(x.births, entries, frames, x.content, x.chunks), x.dropped);
      ConversationKeeps(end.entries, end.frames, exchanges[1..], off + now);
      var later := AllMishaps(end.entries, end.frames, exchanges[1..]);
      assert off + now + later == off + (now + later);
    }
  }

  /** Over a whole conversation from its first message, the two views differ at exactly the mishaps of its turns. */
  lemma ConversationAgrees(exchanges: seq<Exchange>)
    requires forall x :: x in exchanges ==> OrdinaryExchange(x)
    ensures var (entries, frames) := Converse([], [], exchanges);
            forall i: nat :: i in AllMishaps([], [], exchanges) <==> !Agree(Seen(frames, i), Seen(Replay(entries), i))
  {
    ConversationKeeps([], [], exchanges, {});
    var (entries, frames) := Converse([], [], exchanges);
    var mishaps := AllMishaps([], [], exchanges);
    assert {} + mishaps == mishaps;
    RestAgrees(entries, frames, mishaps);
  }
}
