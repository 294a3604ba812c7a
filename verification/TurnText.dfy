/** Nothing the model said is lost: what a turn stores, answer by answer and thought by thought, is what the parser
  * read.
  *
  * `Said` strings together the contents of the entries the handler opened for one author, in
  * index order. Suppression hides entries and a cut-off flags them; neither touches a letter.
  */
module TurnText {
  import opened Wrappers
  import opened Sequences
  import opened ThinkingTags
  import opened ParserRefinements
  import opened SessionEntries
  import opened Frames
  import opened StreamingTurn
  import opened TurnInvariant
  import opened TurnSteps
  import opened TurnTheorems
  import opened TurnSuppression

  function AuthorFor(kind: Kind): Author {
    if kind.Thought? then Thinking else Assistant
  }

  predicate By(entries: seq<Entry>, authored: set<nat>, kind: Kind, i: nat) {
    i in authored && i < |entries| && entries[i].ModelEntry? && entries[i].author == AuthorFor(kind)
  }

  function VoiceAt(entries: seq<Entry>, authored: set<nat>, kind: Kind, i: nat): string {
    if By(entries, authored, kind, i) then entries[i].content else ""
  }

  function Said(entries: seq<Entry>, authored: set<nat>, kind: Kind, upTo: nat): string {
    if upTo == 0 then "" else Said(entries, authored, kind, upTo - 1) + VoiceAt(entries, authored, kind, upTo - 1)
  }

  function SaidIn(st: Stream, kind: Kind): string {
    Said(st.entries, st.authored, kind, |st.entries|)
  }

  /** The text of one kind in a run of segments. */
  function VoiceOf(kind: Kind, segments: seq<Segment>): string {
    if segments == [] then ""
    else (if segments[0].kind == kind then segments[0].content else "") + VoiceOf(kind, segments[1..])
  }

  // ----- Steps that say nothing -----

  predicate SameVoice(st: Stream, next: Stream, kind: Kind) {
    && |st.entries| <= |next.entries|
    && forall i: nat :: i < |next.entries| ==>
         VoiceAt(next.entries, next.authored, kind, i) == VoiceAt(st.entries, st.authored, kind, i)
  }

  lemma {:induction false} SaidAgrees(entries: seq<Entry>, authored: set<nat>, entries': seq<Entry>,
      authored': set<nat>,
      kind: Kind, upTo: nat)
    requires forall i: nat :: i < upTo ==> VoiceAt(entries', authored', kind, i) == VoiceAt(entries, authored, kind, i)
    ensures Said(entries', authored', kind, upTo) == Said(entries, authored, kind, upTo)
  {
    if upTo > 0 {
      SaidAgrees(entries, authored, entries', authored', kind, upTo - 1);
    }
  }

  lemma {:induction false} SaidBeyond(entries: seq<Entry>, authored: set<nat>, kind: Kind, upTo: nat)
    requires upTo >= |entries|
    ensures Said(entries, authored, kind, upTo) == Said(entries, authored, kind, |entries|)
  {
    if upTo > |entries| {
      SaidBeyond(entries, authored, kind, upTo - 1);
    }
  }

  lemma SilentStep(st: Stream, next: Stream, kind: Kind)
    requires SameVoice(st, next, kind)
    ensures SaidIn(next, kind) == SaidIn(st, kind)
  {
    SaidAgrees(st.entries, st.authored, next.entries, next.authored, kind, |next.entries|);
    SaidBeyond(st.entries, st.authored, kind, |next.entries|);
  }

  // ----- Growing -----

  /** The entry of a kind the handler holds open is the last it opened of that kind. */
  predicate Latest(st: Stream, kind: Kind) {
    st.IndexOf(kind).Some? ==>
      var k := st.IndexOf(kind).value;
      By(st.entries, st.authored, kind, k) && forall j: nat :: k < j < |st.entries| ==>
        !By(st.entries, st.authored, kind, j)
  }

  predicate AuthoredInRange(st: Stream) {
    forall i :: i in st.authored ==> i < |st.entries|
  }

  predicate BothLatest(st: Stream) {
    Latest(st, Thought) && Latest(st, Answer)
  }

  lemma {:induction false} SaidGrows(entries: seq<Entry>, authored: set<nat>, kind: Kind, k: nat, e: Entry,
      delta: string, upTo: nat)
    requires k < upTo <= |entries| && By(entries, authored, kind, k)
    requires forall j: nat :: k < j < |entries| ==> !By(entries, authored, kind, j)
    requires e == entries[k].(content := entries[k].content + delta)
    ensures Said(entries[k := e], authored, kind, upTo) == Said(entries, authored, kind, upTo) + delta
  {
    var grown := entries[k := e];
    if upTo - 1 == k {
      SaidAgrees(entries, authored, grown, authored, kind, k);
      Associative(Said(entries, authored, kind, k), entries[k].content, delta);
    } else {
      SaidGrows(entries, authored, kind, k, e, delta, upTo - 1);
      assert !By(entries, authored, kind, upTo - 1);
      assert VoiceAt(grown, authored, kind, upTo - 1) == "" == VoiceAt(entries, authored, kind, upTo - 1);
      assert Said(grown, authored, kind, upTo) == Said(grown, authored, kind, upTo - 1) + "";
      assert Said(entries, authored, kind, upTo) == Said(entries, authored, kind, upTo - 1) + "";
    }
  }

  lemma OpenEntrySilent(births: Births, st: Stream, kind: Kind, voice: Kind, off: set<nat>, late: bool)
    requires Inv(st, off, late) && st.IndexOf(kind).None? && BothLatest(st)
    ensures var next := OpenEntry(NO_POLICY, births, st, kind); SameVoice(st, next, voice) && Latest(next, voice)
  {
    hide Seen, Life, IndexOk, Distinct, NothingAhead;
    var next := OpenEntry(NO_POLICY, births, st, kind);
    assert forall i: nat :: i < |st.entries| ==> next.entries[i] == st.entries[i];
    assert forall i: nat, k: Kind :: i < |st.entries| ==>
      By(next.entries, next.authored, k, i) == By(st.entries, st.authored, k, i);
  }

  lemma GrowSays(st: Stream, kind: Kind, content: string, voice: Kind, off: set<nat>, late: bool)
    requires Inv(st, off, late) && st.IndexOf(kind).Some? && BothLatest(st)
    ensures var next := Grow(NO_POLICY, st, kind, content);
            Latest(next, voice) && SaidIn(next, voice) == SaidIn(st, voice) + if voice == kind then content else ""
  {
    hide Seen, Life, Distinct, NothingAhead, Said;
    var next := Grow(NO_POLICY, st, kind, content);
    var k := st.IndexOf(kind).value;
    assert IndexOk(st, off, late, k);
    assert forall i: nat, v: Kind :: By(next.entries, next.authored, v, i) == By(st.entries, st.authored, v, i);
    if voice == kind {
      SaidGrows(st.entries, st.authored, kind, k, next.entries[k], content, |st.entries|);
    } else {
      SilentStep(st, next, voice);
      assert SaidIn(st, voice) + "" == SaidIn(st, voice);
    }
  }

  lemma SegmentSays(births: Births, st: Stream, kind: Kind, content: string, voice: Kind, off: set<nat>, late: bool)
    requires Inv(st, off, late) && BothLatest(st)
    ensures var next := StreamSegment(NO_POLICY, births, st, kind, content);
            Latest(next, voice) && SaidIn(next, voice) == SaidIn(st, voice) + if voice == kind then content else ""
  {
    hide Seen, Life, Inv, OpenEntry, Grow, SaidIn, Latest, SameVoice;
    if st.IndexOf(kind).Some? {
      GrowSays(st, kind, content, voice, off, late);
    } else {
      var begun := OpenEntry(NO_POLICY, births, st, kind);
      OpenEntryKeeps(births, st, kind, off, late);
      OpenEntrySilent(births, st, kind, Thought, off, late);
      OpenEntrySilent(births, st, kind, Answer, off, late);
      OpenEntrySilent(births, st, kind, voice, off, late);
      SilentStep(st, begun, voice);
      assert begun.IndexOf(kind).Some? by { OpensIt(births, st, kind); }
      GrowSays(begun, kind, content, voice, off, late);
    }
  }

  lemma OpensIt(births: Births, st: Stream, kind: Kind)
    ensures OpenEntry(NO_POLICY, births, st, kind).IndexOf(kind).Some?
  {
  }

  lemma CommitSilent(st: Stream, kind: Kind, voice: Kind, off: set<nat>, late: bool)
    requires Inv(st, off, late) && BothLatest(st)
    ensures var next := CommitAndClear(NO_POLICY, st, kind);
            Latest(next, voice) && SaidIn(next, voice) == SaidIn(st, voice)
  {
    hide Seen, Life, Distinct, NothingAhead, Said;
    var next := CommitAndClear(NO_POLICY, st, kind);
    assert forall i: nat, v: Kind :: By(next.entries, next.authored, v, i) == By(st.entries, st.authored, v, i);
    SilentStep(st, next, voice);
  }

  // ----- Segments -----

  lemma HandleSegmentSays(births: Births, st: Stream, segment: Segment, voice: Kind, off: set<nat>)
    requires Inv(st, off, false) && Spoken(st) && BothLatest(st)
    ensures var next := HandleSegment(NO_POLICY, births, st, segment);
            && Latest(next, voice)
            && SaidIn(next, voice) == SaidIn(st, voice) + if voice == segment.kind then segment.content else ""
  {
    hide Inv, Spoken, SaidIn, Latest, CommitAndClear, StreamSegment;
    if segment.kind.Thought? {
      SegmentSays(births, st, Thought, segment.content, voice, off, false);
    } else {
      var mid := CommitAndClear(NO_POLICY, st, Thought);
      OpenStreams(st, Thought, off);
      CommitKeeps(st, Thought, off, false);
      CommitSilent(st, Thought, Thought, off, false);
      CommitSilent(st, Thought, Answer, off, false);
      SegmentSays(births, mid, Answer, segment.content, voice, off, false);
    }
  }

  lemma {:induction false} HandleSegmentsSay(births: Births, st: Stream, segments: seq<Segment>, voice: Kind,
      off: set<nat>)
    requires Inv(st, off, false) && Spoken(st) && BothLatest(st) && NoneEmpty(segments)
    ensures var next := HandleSegments(NO_POLICY, births, st, segments);
            BothLatest(next) && SaidIn(next, voice) == SaidIn(st, voice) + VoiceOf(voice, segments)
    decreases |segments|
  {
    if segments == [] {
      assert SaidIn(st, voice) + "" == SaidIn(st, voice);
    } else {
      hide Inv, Spoken, SaidIn, Latest, HandleSegment;
      var mid := HandleSegment(NO_POLICY, births, st, segments[0]);
      HandleSegmentKeeps(births, st, segments[0], off);
      HandleSegmentSays(births, st, segments[0], Thought, off);
      HandleSegmentSays(births, st, segments[0], Answer, off);
      HandleSegmentsSay(births, mid, segments[1..], voice, off);
      Associative(SaidIn(st, voice), if voice == segments[0].kind then segments[0].content else "",
        VoiceOf(voice, segments[1..]));
    }
  }

  lemma {:induction false} SegmentsLeaveParser(policy: Policy, births: Births, st: Stream, segments: seq<Segment>)
    requires Usable(policy)
    ensures var next := HandleSegments(policy, births, st, segments);
            next.buffer == st.buffer && next.inside == st.inside
    decreases |segments|
  {
    if segments != [] {
      SegmentsLeaveParser(policy, births, HandleSegment(policy, births, st, segments[0]), segments[1..]);
    }
  }

  // ----- Steps that close, store or hide -----

  lemma CommitOpenSilent(st: Stream, voice: Kind, off: set<nat>)
    requires Inv(st, off, false) && Spoken(st) && BothLatest(st)
    ensures var next := CommitOpenEntries(NO_POLICY, st);
            && Latest(next, voice) && SaidIn(next, voice) == SaidIn(st, voice)
            && next.buffer == st.buffer && next.inside == st.inside
  {
    hide Inv, Spoken, SaidIn, Latest;
    var mid := CommitAndClear(NO_POLICY, st, Thought);
    OpenStreams(st, Thought, off);
    CommitKeeps(st, Thought, off, false);
    CommitSilent(st, Thought, Thought, off, false);
    CommitSilent(st, Thought, Answer, off, false);
    CommitSilent(st, Thought, voice, off, false);
    CommitSilent(mid, Answer, voice, off, false);
  }

  /** A step that adds or marks entries without a letter of the model's, and opens and closes nothing. */
  lemma AccrualSilent(st: Stream, next: Stream, voice: Kind)
    requires BothLatest(st) && AuthoredInRange(st)
    requires next.thinkingIndex == st.thinkingIndex && next.assistantIndex == st.assistantIndex
      && next.authored == st.authored
    requires |st.entries| <= |next.entries|
    requires forall i: nat :: i < |st.entries| ==>
      next.entries[i] == st.entries[i]
      || (next.entries[i].ModelEntry? && st.entries[i].ModelEntry? && next.entries[i].author == st.entries[i].author
          && next.entries[i].content == st.entries[i].content)
    ensures Latest(next, voice) && SaidIn(next, voice) == SaidIn(st, voice)
  {
    hide Said;
    assert forall i: nat, v: Kind :: By(next.entries, next.authored, v, i) == By(st.entries, st.authored, v, i);
    SilentStep(st, next, voice);
  }

  lemma {:induction false} BlankAllSilent(st: Stream, voice: Kind)
    requires BothLatest(st) && AuthoredInRange(st)
    ensures var next := BlankAll(st);
            && BothLatest(next) && SaidIn(next, voice) == SaidIn(st, voice)
            && next.buffer == st.buffer && next.inside == st.inside
    decreases |st.blankable|
  {
    if st.blankable != [] {
      hide SaidIn, Latest;
      var mid := BlankFirst(st);
      AccrualSilent(st, mid, Thought);
      AccrualSilent(st, mid, Answer);
      BlankAllSilent(mid, voice);
    }
  }

  lemma ToolResultSilent(st: Stream, supplied: seq<Entry>, voice: Kind)
    requires BothLatest(st) && AuthoredInRange(st)
    ensures var next := ProcessToolResult(NO_POLICY, st, supplied);
            && Latest(next, voice) && SaidIn(next, voice) == SaidIn(st, voice)
            && next.buffer == st.buffer && next.inside == st.inside
  {
    hide Said, Latest;
    StoringAppends(NO_POLICY, st.entries, supplied);
    StoredAreSupplied(st.entries, supplied);
    ForwardLeaves(st.(entries := StoreSupplied(NO_POLICY, st.entries, supplied)), |st.entries|);
    AccrualSilent(st, ProcessToolResult(NO_POLICY, st, supplied), voice);
  }

  // ----- Chunks -----

  /** The segments a chunk draws out of a parser in this state. */
  function Heard(buffer: string, inside: bool, chunk: Chunk): Drained {
    match chunk
    case TextChunk(text) => Drain(buffer + text, inside)
    case Stop => Drained(Emitted(KindFor(inside), buffer), "", inside)
    case _ => Drained([], buffer, inside)
  }

  lemma TextSays(births: Births, st: Stream, text: string, voice: Kind, off: set<nat>)
    requires Inv(st, off, false) && Spoken(st) && BothLatest(st)
    ensures var next := ProcessText(NO_POLICY, births, st, text); var d := Drain(st.buffer + text, st.inside);
            && BothLatest(next) && SaidIn(next, voice) == SaidIn(st, voice) + VoiceOf(voice, d.segments)
            && next.buffer == d.buffer && next.inside == d.inside
  {
    hide Seen, Life, Distinct, NothingAhead, IndexOk, Drain, Said, VoiceOf, By;
    var d := Drain(st.buffer + text, st.inside);
    var fed := st.(buffer := d.buffer, inside := d.inside);
    ParserIsAside(st, d.buffer, d.inside, off, false);
    HandleSegmentsSay(births, fed, d.segments, voice, off);
    SegmentsLeaveParser(NO_POLICY, births, fed, d.segments);
  }

  lemma FlushSays(births: Births, st: Stream, voice: Kind, off: set<nat>)
    requires Inv(st, off, false) && Spoken(st) && BothLatest(st)
    ensures var next := FlushHeldText(NO_POLICY, births, st);
            && Inv(next, off, false) && Spoken(next) && BothLatest(next)
            && SaidIn(next, voice) == SaidIn(st, voice) + VoiceOf(voice, Emitted(KindFor(st.inside), st.buffer))
            && next.buffer == "" && next.inside == st.inside
  {
    hide Seen, Life, Distinct, NothingAhead, IndexOk, KindFor, Said, VoiceOf, By;
    var flushed := st.(buffer := "");
    var segments := Emitted(KindFor(st.inside), st.buffer);
    ParserIsAside(st, "", st.inside, off, false);
    HandleSegmentsKeep(births, flushed, segments, off);
    HandleSegmentsSay(births, flushed, segments, voice, off);
    SegmentsLeaveParser(NO_POLICY, births, flushed, segments);
  }

  lemma SuppressSilent(st: Stream, voice: Kind, off: set<nat>)
    requires Inv(st, off, false) && Spoken(st) && BothLatest(st)
    ensures var next := ProcessSuppress(NO_POLICY, st);
            && BothLatest(next) && SaidIn(next, voice) == SaidIn(st, voice)
            && next.buffer == st.buffer && next.inside == st.inside
  {
    hide Said, By;
    var mid := CommitOpenEntries(NO_POLICY, st);
    CommitOpenKeeps(st, off);
    CommitOpenSilent(st, Thought, off);
    CommitOpenSilent(st, Answer, off);
    CommitOpenSilent(st, voice, off);
    BlankAllSilent(mid, voice);
  }

  lemma ChunkSays(births: Births, st: Stream, chunk: Chunk, voice: Kind, off: set<nat>)
    requires Inv(st, off, false) && Spoken(st) && BothLatest(st) && Ordinary(chunk)
    ensures var next := ProcessChunk(NO_POLICY, births, st, chunk); var d := Heard(st.buffer, st.inside, chunk);
            && BothLatest(next) && SaidIn(next, voice) == SaidIn(st, voice) + VoiceOf(voice, d.segments)
            && next.buffer == d.buffer && next.inside == d.inside
  {
    hide Seen, Life, IndexOk, Distinct, NothingAhead, SaidIn, Latest, ProcessText, ProcessToolResult, ProcessSuppress,
      FlushHeldText, CommitOpenEntries, Drain;
    assert SaidIn(st, voice) + "" == SaidIn(st, voice);
    match chunk
    case TextChunk(text) => TextSays(births, st, text, voice, off);
    case ToolUse(name, input) =>
      var next := ProcessToolUse(NO_POLICY, births, st, name, input);
      assert forall i: nat :: i < |st.entries| ==> next.entries[i] == st.entries[i];
      AccrualSilent(st, next, Thought);
      AccrualSilent(st, next, Answer);
    case ToolResult(supplied) =>
      ToolResultSilent(st, supplied, Thought);
      ToolResultSilent(st, supplied, Answer);
    case SuppressOutput => SuppressSilent(st, voice, off);
    case Stop =>
      var flushed := FlushHeldText(NO_POLICY, births, st);
      FlushSays(births, st, voice, off);
      CommitOpenSilent(flushed, Thought, off);
      CommitOpenSilent(flushed, Answer, off);
      CommitOpenSilent(flushed, voice, off);
  }

  /** Everything the parser gave out over a run of chunks, and where it was left. */
  function HeardAll(buffer: string, inside: bool, chunks: seq<Chunk>): Drained
    decreases |chunks|
  {
    if chunks == [] then Drained([], buffer, inside)
    else
      var first := Heard(buffer, inside, chunks[0]);
      Prefixed(first.segments, HeardAll(first.buffer, first.inside, chunks[1..]))
  }

  lemma {:induction false} VoiceConcat(voice: Kind, a: seq<Segment>, b: seq<Segment>)
    ensures VoiceOf(voice, a + b) == VoiceOf(voice, a) + VoiceOf(voice, b)
  {
    if a == [] {
      assert a + b == b;
    } else {
      VoiceConcat(voice, a[1..], b);
      assert (a + b)[1..] == a[1..] + b;
      Associative(if a[0].kind == voice then a[0].content else "", VoiceOf(voice, a[1..]), VoiceOf(voice, b));
    }
  }

  lemma {:induction false} ChunksSay(births: Births, st: Stream, chunks: seq<Chunk>, voice: Kind, off: set<nat>)
    requires Inv(st, off, false) && Spoken(st) && BothLatest(st)
    requires forall c :: c in chunks ==> Ordinary(c)
    ensures var next := ProcessChunks(NO_POLICY, births, st, chunks); var d := HeardAll(st.buffer, st.inside, chunks);
            && BothLatest(next) && SaidIn(next, voice) == SaidIn(st, voice) + VoiceOf(voice, d.segments)
            && next.buffer == d.buffer && next.inside == d.inside
    decreases |chunks|
  {
    if chunks == [] {
      assert SaidIn(st, voice) + "" == SaidIn(st, voice);
    } else {
      hide Inv, Spoken, SaidIn, Latest, ProcessChunk, Heard, VoiceOf;
      var mid := ProcessChunk(NO_POLICY, births, st, chunks[0]);
      var first := Heard(st.buffer, st.inside, chunks[0]);
      ChunkKeeps(births, st, chunks[0], off);
      ChunkSays(births, st, chunks[0], voice, off);
      ChunksSay(births, mid, chunks[1..], voice, off);
      var rest := HeardAll(first.buffer, first.inside, chunks[1..]);
      VoiceConcat(voice, first.segments, rest.segments);
      Associative(SaidIn(st, voice), VoiceOf(voice, first.segments), VoiceOf(voice, rest.segments));
    }
  }

  // ----- The whole turn -----

  lemma CutOffSilent(st: Stream, kind: Kind, voice: Kind)
    requires InRange(st) && BothLatest(st)
    ensures var next := CloseCutOff(NO_POLICY, st, kind);
            Latest(next, voice) && SaidIn(next, voice) == SaidIn(st, voice)
  {
    hide Said, Distinct;
    if st.IndexOf(kind).Some? {
      var next := CloseCutOff(NO_POLICY, st, kind);
      CutOffFrames(st, kind, st.IndexOf(kind).value);
      assert forall i: nat, v: Kind :: By(next.entries, next.authored, v, i) == By(st.entries, st.authored, v, i);
      SilentStep(st, next, voice);
    }
  }

  lemma LateFlushSays(births: Births, st: Stream, voice: Kind, off: set<nat>)
    requires Inv(st, off, true) && Spoken(st) && Lags(st, Thought) && BothLatest(st)
    ensures var next := FlushHeldText(NO_POLICY, births, st);
            Latest(next, voice) && SaidIn(next, voice)
              == SaidIn(st, voice) + VoiceOf(voice, Emitted(KindFor(st.inside), st.buffer))
  {
    hide Seen, Life, Distinct, NothingAhead, IndexOk, Said, By, StreamSegment;
    var flushed := st.(buffer := "");
    var segment := Segment(KindFor(st.inside), st.buffer);
    FlushIsOneSegment(NO_POLICY, births, st);
    ParserIsAside(st, "", st.inside, off, true);
    assert SaidIn(st, voice) + "" == SaidIn(st, voice);
    if st.buffer == "" {
    } else {
      assert [segment][1..] == [];
      assert segment.content + "" == segment.content;
      if st.inside {
        SegmentSays(births, flushed, Thought, st.buffer, voice, off, true);
      } else {
        var mid := CommitAndClear(NO_POLICY, flushed, Thought);
        CommitSilent(flushed, Thought, Thought, off, true);
        CommitSilent(flushed, Thought, Answer, off, true);
        CommitSilent(flushed, Thought, voice, off, true);
        if flushed.thinkingIndex.Some? {
          CommitLags(flushed, Thought, off, flushed.thinkingIndex.value);
          SegmentSays(births, mid, Answer, st.buffer, voice,
            if flushed.suppressOutput then off else off + {flushed.thinkingIndex.value}, true);
        } else {
          SegmentSays(births, mid, Answer, st.buffer, voice, off, true);
        }
      }
    }
  }

  lemma EndSays(births: Births, st: Stream, voice: Kind, off: set<nat>)
    requires Inv(st, off, false) && Spoken(st) && BothLatest(st)
    ensures SaidIn(EndTurn(NO_POLICY, births, st), voice)
         == SaidIn(st, voice) + VoiceOf(voice, Emitted(KindFor(st.inside), st.buffer))
  {
    var closed := RunClosed(st);
    AccrualSilent(st, closed, Thought);
    AccrualSilent(st, closed, Answer);
    AccrualSilent(st, closed, voice);
    hide Spoken, CloseCutOff, FlushHeldText, SaidIn, Latest, TurnClosed, Seen, Life, IndexOk, NothingAhead, Distinct;
    RunClosedKeeps(st, off);
    LateFlushSays(births, closed, Thought, off);
    LateFlushSays(births, closed, Answer, off);
    LateFlushSays(births, closed, voice, off);
    LateFlushKeeps(births, closed, off);
    var flushed := FlushHeldText(NO_POLICY, births, closed);
    var off' := off + StrandedThought(closed);
    CutOffSilent(flushed, Thought, Thought);
    CutOffSilent(flushed, Thought, Answer);
    CutOffSilent(flushed, Thought, voice);
    CutOffKeeps(flushed, Thought, off');
    CutOffSilent(CloseCutOff(NO_POLICY, flushed, Thought), Answer, voice);
  }

  lemma {:induction false} NothingSaidYet(entries: seq<Entry>, kind: Kind, upTo: nat)
    ensures Said(entries, {}, kind, upTo) == ""
  {
    if upTo > 0 {
      NothingSaidYet(entries, kind, upTo - 1);
    }
  }

  /** The segments of a whole turn, the tail the parser still held at its end included. */
  function TurnSegments(chunks: seq<Chunk>): seq<Segment> {
    var d := HeardAll("", false, chunks);
    d.segments + Emitted(KindFor(d.inside), d.buffer)
  }

  lemma BeginSaysNothing(births: Births, entries: seq<Entry>, frames: seq<Frame>, content: string, voice: Kind)
    ensures var st := BeginTurn(NO_POLICY, births, entries, frames, content);
            SaidIn(st, voice) == "" && BothLatest(st) && AuthoredInRange(st) && st.buffer == "" && !st.inside
  {
    UnsaidIn(BeginTurn(NO_POLICY, births, entries, frames, content), voice);
  }

  lemma {:induction false} InvIsInRange(st: Stream, off: set<nat>, late: bool)
    requires Inv(st, off, late)
    ensures InRange(st) && AuthoredInRange(st)
  {
  }

  /** However the turn went and ended, its answers and its thoughts are stored letter for letter as the parser gave them
    * out. */
  lemma NothingSaidIsLost(births: Births, entries: seq<Entry>, frames: seq<Frame>, content: string,
      chunks: seq<Chunk>, dropped: Option<Chunk>, voice: Kind, off: set<nat>)
    requires AtRest(entries, frames, off)
    requires (forall c :: c in chunks ==> Ordinary(c)) && (dropped.Some? ==> Ordinary(dropped.value))
    ensures SaidIn(Turn(NO_POLICY, births, entries, frames, content, chunks, dropped), voice)
         == VoiceOf(voice, TurnSegments(chunks))
  {
    hide AtRest, BeginTurn, DropChunk, ProcessChunks, EndTurn, SaidIn, HeardAll, VoiceOf, Inv, InRange, Spoken,
      AuthoredInRange, Latest, Emitted, KindFor;
    var begun := BeginTurn(NO_POLICY, births, entries, frames, content);
    var st := Streamed(births, entries, frames, content, chunks);
    var d := HeardAll("", false, chunks);
    BeginSaysNothing(births, entries, frames, content, voice);
    BeginKeeps(births, entries, frames, content, off);
    ChunksKeep(births, begun, chunks, off);
    ChunksSay(births, begun, chunks, voice, off);
    var left := DropChunk(NO_POLICY, st, dropped);
    InvIsInRange(st, off, false);
    DropKeeps(st, dropped, off);
    DropSilent(st, dropped, Thought);
    DropSilent(st, dropped, Answer);
    DropSilent(st, dropped, voice);
    EndSays(births, left, voice, off + Unsent(st, dropped));
    VoiceConcat(voice, d.segments, Emitted(KindFor(d.inside), d.buffer));
    assert "" + VoiceOf(voice, d.segments) == VoiceOf(voice, d.segments);
  }

  lemma UnsaidIn(st: Stream, voice: Kind)
    requires st.authored == {}
    ensures SaidIn(st, voice) == ""
  {
    NothingSaidYet(st.entries, voice, |st.entries|);
  }

  lemma DropSilent(st: Stream, dropped: Option<Chunk>, voice: Kind)
    requires BothLatest(st) && AuthoredInRange(st)
    ensures var next := DropChunk(NO_POLICY, st, dropped);
            && Latest(next, voice) && SaidIn(next, voice) == SaidIn(st, voice)
            && next.buffer == st.buffer && next.inside == st.inside
  {
    if dropped.Some? && dropped.value.ToolResult? {
      StoringAppends(NO_POLICY, st.entries, dropped.value.supplied);
      StoredAreSupplied(st.entries, dropped.value.supplied);
      AccrualSilent(st, DropChunk(NO_POLICY, st, dropped), voice);
    }
  }

  // ----- Against the reference reading -----

  function Texts(chunks: seq<Chunk>): seq<string> {
    if chunks == [] then []
    else (if chunks[0].TextChunk? then [chunks[0].text] else []) + Texts(chunks[1..])
  }

  function LettersOf(kind: Kind, letters: seq<Letter>): string {
    if letters == [] then ""
    else (if letters[0].kind == kind then [letters[0].c] else "") + LettersOf(kind, letters[1..])
  }

  lemma {:induction false} LettersConcat(kind: Kind, a: seq<Letter>, b: seq<Letter>)
    ensures LettersOf(kind, a + b) == LettersOf(kind, a) + LettersOf(kind, b)
  {
    if a == [] {
      assert a + b == b;
    } else {
      LettersConcat(kind, a[1..], b);
      assert (a + b)[1..] == a[1..] + b;
      Associative(if a[0].kind == kind then [a[0].c] else "", LettersOf(kind, a[1..]), LettersOf(kind, b));
    }
  }

  lemma {:induction false} LettersOfSpelled(kind: Kind, other: Kind, content: string)
    ensures LettersOf(kind, Spelled(other, content)) == if kind == other then content else ""
  {
    if content != "" {
      LettersOfSpelled(kind, other, content[1..]);
      assert Spelled(other, content)[1..] == Spelled(other, content[1..]);
      assert content == [content[0]] + content[1..];
    }
  }

  lemma {:induction false} VoiceIsLetters(kind: Kind, segments: seq<Segment>)
    ensures VoiceOf(kind, segments) == LettersOf(kind, Flatten(segments))
  {
    if segments != [] {
      VoiceIsLetters(kind, segments[1..]);
      LettersConcat(kind, Spelled(segments[0].kind, segments[0].content), Flatten(segments[1..]));
      LettersOfSpelled(kind, segments[0].kind, segments[0].content);
    }
  }

  lemma FeedStep(text: string, texts: seq<string>, buffer: string, inside: bool)
    ensures var d := Drain(buffer + text, inside);
            Feed([text] + texts, buffer, inside) == Prefixed(d.segments, Feed(texts, d.buffer, d.inside))
  {
    hide Drain;
    assert ([text] + texts)[1..] == texts;
  }

  lemma {:induction false} HeardIsFed(buffer: string, inside: bool, chunks: seq<Chunk>)
    requires forall c :: c in chunks ==> !c.Stop?
    ensures HeardAll(buffer, inside, chunks) == Feed(Texts(chunks), buffer, inside)
    decreases |chunks|
  {
    if chunks != [] {
      hide Drain, Feed;
      assert !chunks[0].Stop?;
      if chunks[0].TextChunk? {
        var d := Drain(buffer + chunks[0].text, inside);
        FeedStep(chunks[0].text, Texts(chunks[1..]), buffer, inside);
        HeardIsFed(d.buffer, d.inside, chunks[1..]);
      } else {
        assert Texts(chunks) == Texts(chunks[1..]);
        HeardIsFed(buffer, inside, chunks[1..]);
        var rest := HeardAll(buffer, inside, chunks[1..]);
        assert [] + rest.segments == rest.segments;
      }
    }
  }

  /** A turn cut off before any stop keeps everything the model produced: each kind's stored text is what the reference
    * reading of the whole stream gives it, however the stream was chunked. */
  lemma CutOffTurnKeepsTheReading(births: Births, entries: seq<Entry>, frames: seq<Frame>, content: string,
      chunks: seq<Chunk>, dropped: Option<Chunk>, voice: Kind, off: set<nat>)
    requires AtRest(entries, frames, off)
    requires (forall c :: c in chunks ==> Ordinary(c) && !c.Stop?) && (dropped.Some? ==> Ordinary(dropped.value))
    ensures SaidIn(Turn(NO_POLICY, births, entries, frames, content, chunks, dropped), voice)
         == LettersOf(voice, Read(Concat(Texts(chunks)), false))
  {
    hide Turn, SaidIn, VoiceOf, AtRest, Read, Feed;
    NothingSaidIsLost(births, entries, frames, content, chunks, dropped, voice, off);
    HeardIsFed("", false, chunks);
    assert TurnSegments(chunks) == Parse(Texts(chunks));
    VoiceIsLetters(voice, Parse(Texts(chunks)));
    ParseReads(Texts(chunks));
  }
}
