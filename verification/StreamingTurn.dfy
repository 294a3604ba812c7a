/** One user message's turn: provider chunks become entries and frames.
  *
  * The functions are the turn's steps on values; the class `TurnHandler` does them in place on
  * a session, with the parser and the entry writer as objects. `births` is what the clock and
  * the session's persona read when the entry at an index is created.
  */
module StreamingTurn {
  import opened Wrappers
  import opened ThinkingTags
  import opened SessionEntries
  import opened Frames

  datatype Births = Births(at: nat -> int, persona: nat -> Option<string>)

  datatype Stream = Stream(
    entries: seq<Entry>,
    frames: seq<Frame>,
    thinkingIndex: Option<nat>,
    assistantIndex: Option<nat>,
    suppressOutput: bool,
    blankable: seq<nat>,
    // Every index the handler opened for the model this turn, which the handler itself never needs to hold.
    authored: set<nat>,
    buffer: string,
    inside: bool)
  {
    function IndexOf(kind: Kind): Option<nat> {
      if kind.Thought? then thinkingIndex else assistantIndex
    }

    function WithIndex(kind: Kind, index: Option<nat>): Stream {
      if kind.Thought? then this.(thinkingIndex := index) else this.(assistantIndex := index)
    }

    function Sent(frame: Frame): Stream {
      this.(frames := frames + [frame])
    }
  }

  datatype Chunk =
    | TextChunk(text: string)
    | ToolUse(name: string, input: map<string, string>)
    // The entries the tools returned: the orchestrator stores them, then the handler forwards them.
    | ToolResult(supplied: seq<Entry>)
    | SuppressOutput
    | Stop

  function NewEntry(births: Births, kind: Kind, index: nat): Entry {
    match kind
    case Answer => ModelEntry(Assistant, "", Some(births.at(index)), true, false, false, births.persona(index), false)
    case Thought => ModelEntry(Thinking, "", Some(births.at(index)), true, false, false, None, false)
  }

  function MarkSuppressed(entries: seq<Entry>, index: nat): seq<Entry> {
    if index < |entries| && entries[index].ModelEntry?
    then entries[index := entries[index].(suppressed := true)] else entries
  }

  // ----- Opening, growing and closing an entry -----

  function OpenEntry(policy: Policy, births: Births, st: Stream, kind: Kind): Stream
    requires Usable(policy)
  {
    var index := |st.entries|;
    var appended := st.(entries := Append(policy, st.entries, NewEntry(births, kind, index)),
      authored := st.authored + {index})
                      .WithIndex(kind, Some(index));
    if st.suppressOutput then appended.(entries := MarkSuppressed(appended.entries, index)).Sent(Skip(index))
    else appended.Sent(Upsert(index, appended.entries[index]))
  }

  function Grow(policy: Policy, st: Stream, kind: Kind, content: string): Stream
    requires Usable(policy)
    requires st.IndexOf(kind).Some?
  {
    var index := st.IndexOf(kind).value;
    var grown := st.(entries := Apply(policy, st.entries, Adds(index, content)));
    if st.suppressOutput then grown else grown.Sent(Delta(index, content))
  }

  function StreamSegment(policy: Policy, births: Births, st: Stream, kind: Kind, content: string): Stream
    requires Usable(policy)
  {
    Grow(policy, if st.IndexOf(kind).Some? then st else OpenEntry(policy, births, st, kind), kind, content)
  }

  function CommitAndClear(policy: Policy, st: Stream, kind: Kind): Stream
    requires Usable(policy)
  {
    if st.IndexOf(kind).None? then st
    else
      var index := st.IndexOf(kind).value;
      var closed := st.(entries := Apply(policy, st.entries, Commits(index))).WithIndex(kind, None);
      if st.suppressOutput then closed else closed.Sent(Commit(index)).(blankable := st.blankable + [index])
  }

  function HandleSegment(policy: Policy, births: Births, st: Stream, segment: Segment): Stream
    requires Usable(policy)
  {
    if segment.kind.Thought? then StreamSegment(policy, births, st, Thought, segment.content)
    else StreamSegment(policy, births, CommitAndClear(policy, st, Thought), Answer, segment.content)
  }

  function HandleSegments(policy: Policy, births: Births, st: Stream, segments: seq<Segment>): Stream
    requires Usable(policy)
    decreases |segments|
  {
    if segments == [] then st
    else HandleSegments(policy, births, HandleSegment(policy, births, st, segments[0]), segments[1..])
  }

  function CommitOpenEntries(policy: Policy, st: Stream): Stream
    requires Usable(policy)
  {
    CommitAndClear(policy, CommitAndClear(policy, st, Thought), Answer)
  }

  function FlushHeldText(policy: Policy, births: Births, st: Stream): Stream
    requires Usable(policy)
  {
    HandleSegments(policy, births, st.(buffer := ""), Emitted(KindFor(st.inside), st.buffer))
  }

  // ----- The chunks -----

  function ProcessText(policy: Policy, births: Births, st: Stream, text: string): Stream
    requires Usable(policy)
  {
    var drained := Drain(st.buffer + text, st.inside);
    HandleSegments(policy, births, st.(buffer := drained.buffer, inside := drained.inside), drained.segments)
  }

  function ProcessToolUse(policy: Policy, births: Births, st: Stream, name: string, input: map<string, string>): Stream
    requires Usable(policy)
  {
    var index := |st.entries|;
    var entries := Append(policy, st.entries, ToolEntry(name, input, Some(births.at(index)), false));
    st.(entries := entries).Sent(Upsert(index, entries[index]))
  }

  /** The orchestrator's half of a tool result: every entry stored, none of them sent yet. */
  function StoreSupplied(policy: Policy, entries: seq<Entry>, supplied: seq<Entry>): seq<Entry>
    requires Usable(policy)
    decreases |supplied|
  {
    if supplied == [] then entries else StoreSupplied(policy, Append(policy, entries, supplied[0]), supplied[1..])
  }

  /** The handler's half: the stored entries from `from` on go out, each at its own index. */
  function ForwardFrom(st: Stream, from: nat): Stream
    requires from <= |st.entries|
    decreases |st.entries| - from
  {
    if from == |st.entries| then st else ForwardFrom(st.Sent(Upsert(from, st.entries[from])), from + 1)
  }

  lemma {:induction false} StoringAppends(policy: Policy, entries: seq<Entry>, supplied: seq<Entry>)
    requires Usable(policy)
    ensures var stored := StoreSupplied(policy, entries, supplied);
            && |stored| == |entries| + |supplied|
            && stored[..|entries|] == entries
    decreases |supplied|
  {
    if supplied != [] {
      StoringAppends(policy, Append(policy, entries, supplied[0]), supplied[1..]);
    }
  }

  /** Forwarding sends frames and does nothing else. */
  lemma {:induction false} ForwardLeaves(st: Stream, from: nat)
    requires from <= |st.entries|
    ensures var next := ForwardFrom(st, from);
            next == st.(frames := next.frames)
    decreases |st.entries| - from
  {
    if from < |st.entries| {
      ForwardLeaves(st.Sent(Upsert(from, st.entries[from])), from + 1);
    }
  }

  function ProcessToolResult(policy: Policy, st: Stream, supplied: seq<Entry>): Stream
    requires Usable(policy)
  {
    StoringAppends(policy, st.entries, supplied);
    ForwardFrom(st.(entries := StoreSupplied(policy, st.entries, supplied)), |st.entries|)
  }

  /** The blankable entry at the head is re-sent blank and marked. */
  function BlankFirst(st: Stream): Stream
    requires st.blankable != []
  {
    var index := st.blankable[0];
    var rest := st.(blankable := st.blankable[1..]);
    if index < |st.entries| && st.entries[index].ModelEntry?
    then rest.Sent(Upsert(index, st.entries[index].(content := ""))).(entries := MarkSuppressed(st.entries, index))
    else rest
  }

  function BlankAll(st: Stream): Stream
    decreases |st.blankable|
  {
    if st.blankable == [] then st else BlankAll(BlankFirst(st))
  }

  function ProcessSuppress(policy: Policy, st: Stream): Stream
    requires Usable(policy)
  {
    BlankAll(CommitOpenEntries(policy, st)).(suppressOutput := true)
  }

  function ProcessStop(policy: Policy, births: Births, st: Stream): Stream
    requires Usable(policy)
  {
    CommitOpenEntries(policy, FlushHeldText(policy, births, st))
  }

  function ProcessChunk(policy: Policy, births: Births, st: Stream, chunk: Chunk): Stream
    requires Usable(policy)
  {
    match chunk
    case TextChunk(text) => ProcessText(policy, births, st, text)
    case ToolUse(name, input) => ProcessToolUse(policy, births, st, name, input)
    case ToolResult(supplied) => ProcessToolResult(policy, st, supplied)
    case SuppressOutput => ProcessSuppress(policy, st)
    case Stop => ProcessStop(policy, births, st)
  }

  function ProcessChunks(policy: Policy, births: Births, st: Stream, chunks: seq<Chunk>): Stream
    requires Usable(policy)
    decreases |chunks|
  {
    if chunks == [] then st
    else ProcessChunks(policy, births, ProcessChunk(policy, births, st, chunks[0]), chunks[1..])
  }

  // ----- The turn -----

  function BeginTurn(policy: Policy, births: Births, entries: seq<Entry>, frames: seq<Frame>, content: string): Stream
    requires Usable(policy)
  {
    var index := |entries|;
    var user := UserEntry(content, Some(births.at(index)), false);
    Stream(Append(policy, entries, user), frames + [Upsert(index, user)], None, None, false, [], {}, "", false)
  }

  /** A chunk the run yielded to a turn whose socket had closed: only what the orchestrator stored for it is left. */
  function DropChunk(policy: Policy, st: Stream, dropped: Option<Chunk>): Stream
    requires Usable(policy)
  {
    if dropped.Some? && dropped.value.ToolResult?
    then st.(entries := StoreSupplied(policy, st.entries, dropped.value.supplied)) else st
  }

  function CloseCutOff(policy: Policy, st: Stream, kind: Kind): Stream
    requires Usable(policy)
  {
    if st.IndexOf(kind).None? || st.IndexOf(kind).value >= |st.entries| then st
    else
      var index := st.IndexOf(kind).value;
      var marked := st.(entries := Apply(policy, st.entries, Truncates(index)));
      CommitAndClear(policy,
        if st.suppressOutput then marked else marked.Sent(Upsert(index, marked.entries[index])), kind)
  }

  /** However the stream ended, the run closes its entries first and the handler then closes what it still holds
    * open. */
  function EndTurn(policy: Policy, births: Births, st: Stream): Stream
    requires Usable(policy)
  {
    var closed := st.(entries := TurnClosed(policy, st.entries));
    CloseCutOff(policy, CloseCutOff(policy, FlushHeldText(policy, births, closed), Thought), Answer)
  }

  /** A whole turn: stop, no stop, a throw and an abandoned run differ only in the chunks and in what was dropped. */
  function Turn(policy: Policy, births: Births, entries: seq<Entry>, frames: seq<Frame>, content: string,
      chunks: seq<Chunk>, dropped: Option<Chunk>): Stream
    requires Usable(policy)
  {
    var streamed := ProcessChunks(policy, births, BeginTurn(policy, births, entries, frames, content), chunks);
    EndTurn(policy, births, DropChunk(policy, streamed, dropped))
  }
}
