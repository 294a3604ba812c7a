/** The turn in place: the stream's state, its session, its parser and the frames it sends, updated chunk by chunk. */
module TurnHandlers {
  import opened Wrappers
  import opened ThinkingTags
  import opened SessionEntries
  import opened Frames
  import opened StreamingTurn
  import opened TurnQuestions

  /** What the handler's indices always point at, under any policy. */
  predicate Sound(st: Stream) {
    && (st.thinkingIndex.Some? ==> IsModels(st.entries, st.thinkingIndex.value))
    && (st.assistantIndex.Some? ==> IsModels(st.entries, st.assistantIndex.value))
    && forall i :: i in st.blankable ==> IsModels(st.entries, i)
  }

  predicate IsModels(entries: seq<Entry>, i: nat) {
    i < |entries| && entries[i].ModelEntry?
  }

  class TurnHandler {
    const session: Session
    const writer: EntryWriter
    const parser: ThinkingTagParser
    const births: Births
    var thinkingIndex: Option<nat>
    var assistantIndex: Option<nat>
    var suppressOutput: bool
    var blankableIndices: seq<nat>
    var sent: seq<Frame>
    ghost var authored: set<nat>

    ghost function State(): Stream
      reads this, session, parser
    {
      Stream(session.entries, sent, thinkingIndex, assistantIndex, suppressOutput, blankableIndices, authored,
        parser.buffer, parser.insideThinking)
    }

    ghost predicate Valid()
      reads this, session, parser
    {
      Usable(writer.policy) && Sound(State())
    }

    /** The user's own entry goes in and out before anything of the model's. */
    constructor (session: Session, writer: EntryWriter, births: Births, sent: seq<Frame>, content: string)
      requires Usable(writer.policy)
      modifies session
      ensures this.session == session && this.writer == writer && this.births == births && fresh(parser)
      ensures Valid() && State() == BeginTurn(writer.policy, births, old(session.entries), sent, content)
      ensures var said := UserEntry(content, Some(births.at(|old(session.entries)|)), false);
              && session.entries == old(session.entries) + [said]
              && this.sent == sent + [Upsert(|old(session.entries)|, said)]
              && IndexOf(Thought).None? && IndexOf(Answer).None? && !suppressOutput && blankableIndices == []
    {
      this.session, this.writer, this.births := session, writer, births;
      thinkingIndex, assistantIndex, suppressOutput, blankableIndices, authored := None, None, false, [], {};
      this.sent := sent;
      parser := new ThinkingTagParser();
      new;
      var userEntry := UserEntry(content, Some(births.at(|session.entries|)), false);
      var userIndex := writer.AppendEntry(session, userEntry);
      this.sent := this.sent + [Upsert(userIndex, userEntry)];
    }

    function IndexOf(kind: Kind): Option<nat>
      reads this
    {
      if kind.Thought? then thinkingIndex else assistantIndex
    }

    method SetIndex(kind: Kind, index: Option<nat>)
      modifies this`thinkingIndex, this`assistantIndex
      ensures State() == old(State()).WithIndex(kind, index)
    {
      if kind.Thought? {
        thinkingIndex := index;
      } else {
        assistantIndex := index;
      }
    }

    method Send(frame: Frame)
      modifies this`sent
      ensures State() == old(State()).Sent(frame)
    {
      sent := sent + [frame];
    }

    method MarkSuppressed(index: nat)
      requires index < |session.entries|
      modifies session
      ensures session.entries == StreamingTurn.MarkSuppressed(old(session.entries), index)
    {
      var entry := session.entries[index];
      if entry.ModelEntry? {
        session.entries := session.entries[index := entry.(suppressed := true)];
      }
    }

    method StreamSegment(kind: Kind, content: string)
      requires Valid()
      modifies this, session
      ensures Valid() && State() == StreamingTurn.StreamSegment(writer.policy, births, old(State()), kind, content)
    {
      hide StreamingTurn.OpenEntry, StreamingTurn.Grow;
      if IndexOf(kind).None? {
        OpenEntry(kind);
      }
      Grow(kind, content);
    }

    method Grow(kind: Kind, content: string)
      requires Valid() && IndexOf(kind).Some?
      modifies this, session
      ensures Valid() && State() == StreamingTurn.Grow(writer.policy, old(State()), kind, content)
    {
      hide Finalised;
      var index := IndexOf(kind).value;
      writer.AppendDelta(session, index, content);
      GrownStaysModels(old(session.entries), index, content);
      if !suppressOutput {
        Send(Delta(index, content));
      }
    }

    lemma GrownStaysModels(entries: seq<Entry>, index: nat, content: string)
      requires Usable(writer.policy) && index < |entries|
      ensures forall i: nat :: IsModels(entries, i) ==> IsModels(Apply(writer.policy, entries, Adds(index, content)), i)
    {
      assert RoleOf(Grown(writer.policy, entries[index], content)) == RoleOf(entries[index]);
    }

    method OpenEntry(kind: Kind)
      requires Valid() && IndexOf(kind).None?
      modifies this, session
      ensures Valid() && IndexOf(kind).Some?
      ensures State() == StreamingTurn.OpenEntry(writer.policy, births, old(State()), kind)
    {
      var index := writer.AppendEntry(session, NewEntry(births, kind, |session.entries|));
      authored := authored + {index};
      SetIndex(kind, Some(index));
      if suppressOutput {
        MarkSuppressed(index);
        Send(Skip(index));
      } else {
        Send(Upsert(index, session.entries[index]));
      }
    }

    method CommitAndClear(kind: Kind)
      requires Valid()
      modifies this, session
      ensures Valid() && State() == StreamingTurn.CommitAndClear(writer.policy, old(State()), kind)
    {
      var index := IndexOf(kind);
      if index.None? {
        return;
      }
      writer.CommitEntry(session, index.value);
      SetIndex(kind, None);
      if suppressOutput {
        return;
      }
      Send(Commit(index.value));
      blankableIndices := blankableIndices + [index.value];
    }

    method HandleTextSegment(segment: Segment)
      requires Valid()
      modifies this, session
      ensures Valid() && State() == HandleSegment(writer.policy, births, old(State()), segment)
    {
      if segment.kind.Thought? {
        StreamSegment(Thought, segment.content);
        return;
      }
      CommitAndClear(Thought);
      StreamSegment(Answer, segment.content);
    }

    method HandleTextSegments(segments: seq<Segment>)
      requires Valid()
      modifies this, session
      ensures Valid() && State() == HandleSegments(writer.policy, births, old(State()), segments)
    {
      hide HandleSegment;
      var k := 0;
      while k < |segments|
        invariant k <= |segments| && Valid()
        invariant HandleSegments(writer.policy, births, State(), segments[k..])
               == HandleSegments(writer.policy, births, old(State()), segments)
      {
        assert segments[k..][1..] == segments[k + 1..];
        HandleTextSegment(segments[k]);
        k := k + 1;
      }
    }

    method FlushHeldText()
      requires Valid()
      modifies this, session, parser
      ensures Valid() && State() == StreamingTurn.FlushHeldText(writer.policy, births, old(State()))
    {
      hide HandleSegments;
      var segments := parser.Flush();
      HandleTextSegments(segments);
    }

    method ProcessTextChunk(text: string)
      requires Valid()
      modifies this, session, parser
      ensures Valid() && State() == ProcessText(writer.policy, births, old(State()), text)
    {
      hide HandleSegments, Drain;
      var segments := parser.Push(text);
      HandleTextSegments(segments);
    }

    method ProcessToolUseChunk(name: string, input: map<string, string>)
      requires Valid()
      modifies this, session
      ensures Valid() && State() == ProcessToolUse(writer.policy, births, old(State()), name, input)
    {
      var toolIndex := writer.AppendEntry(session, ToolEntry(name, input, Some(births.at(|session.entries|)), false));
      Send(Upsert(toolIndex, session.entries[toolIndex]));
    }

    /** The orchestrator's write: each entry a tool returned gets its index as it is stored. */
    method AssignEntryIndices(supplied: seq<Entry>)
      requires Valid()
      modifies session
      ensures Valid() && session.entries == StoreSupplied(writer.policy, old(session.entries), supplied)
    {
      var k := 0;
      while k < |supplied|
        invariant k <= |supplied| && Valid()
        invariant StoreSupplied(writer.policy, session.entries, supplied[k..])
               == StoreSupplied(writer.policy, old(session.entries), supplied)
      {
        assert supplied[k..][1..] == supplied[k + 1..];
        var _ := writer.AppendEntry(session, supplied[k]);
        k := k + 1;
      }
    }

    method ProcessToolResultChunk(from: nat)
      requires Valid() && from <= |session.entries|
      modifies this
      ensures Valid() && State() == ForwardFrom(old(State()), from)
    {
      var index := from;
      while index < |session.entries|
        invariant from <= index <= |session.entries| && Valid()
        invariant ForwardFrom(State(), index) == ForwardFrom(old(State()), from)
      {
        Send(Upsert(index, session.entries[index]));
        index := index + 1;
      }
    }

    method CommitOpenEntries()
      requires Valid()
      modifies this, session
      ensures Valid() && State() == StreamingTurn.CommitOpenEntries(writer.policy, old(State()))
    {
      hide StreamingTurn.CommitAndClear;
      CommitAndClear(Thought);
      CommitAndClear(Answer);
    }

    method ProcessSuppressChunk()
      requires Valid()
      modifies this, session
      ensures Valid() && State() == ProcessSuppress(writer.policy, old(State()))
    {
      hide StreamingTurn.CommitOpenEntries, StreamingTurn.MarkSuppressed, BlankFirst;
      CommitOpenEntries();
      ghost var committed := State();
      var k := 0;
      assert blankableIndices[0..] == blankableIndices;
      while k < |blankableIndices|
        invariant k <= |blankableIndices| && Valid()
        invariant State().suppressOutput == committed.suppressOutput
        invariant BlankAll(State().(blankable := blankableIndices[k..])) == BlankAll(committed)
      {
        BlankEntry(k);
        k := k + 1;
      }
      assert BlankAll(State().(blankable := [])) == State().(blankable := []);
      blankableIndices := [];
      suppressOutput := true;
    }

    method BlankEntry(k: nat)
      requires Valid() && k < |blankableIndices|
      modifies this, session
      ensures Valid() && blankableIndices == old(blankableIndices) && suppressOutput == old(suppressOutput)
      ensures State().(blankable := blankableIndices[k + 1..])
        == BlankFirst(old(State().(blankable := blankableIndices[k..])))
    {
      var idx := blankableIndices[k];
      assert idx in blankableIndices;
      assert blankableIndices[k..][1..] == blankableIndices[k + 1..];
      Send(Upsert(idx, session.entries[idx].(content := "")));
      MarkSuppressed(idx);
    }

    method ProcessStopChunk()
      requires Valid()
      modifies this, session, parser
      ensures Valid() && State() == ProcessStop(writer.policy, births, old(State()))
    {
      hide StreamingTurn.FlushHeldText, StreamingTurn.CommitOpenEntries;
      FlushHeldText();
      CommitOpenEntries();
    }

    method ProcessChunk(chunk: Chunk)
      requires Valid()
      modifies this, session, parser
      ensures Valid() && State() == StreamingTurn.ProcessChunk(writer.policy, births, old(State()), chunk)
    {
      hide ProcessText, ProcessToolUse, ProcessSuppress, ProcessStop, ForwardFrom, StoreSupplied;
      match chunk
      case TextChunk(text) => ProcessTextChunk(text);
      case ToolUse(name, input) => ProcessToolUseChunk(name, input);
      case ToolResult(supplied) =>
        var from := |session.entries|;
        StoringAppends(writer.policy, session.entries, supplied);
        AssignEntryIndices(supplied);
        ProcessToolResultChunk(from);
      case SuppressOutput => ProcessSuppressChunk();
      case Stop => ProcessStopChunk();
    }

    method CloseCutOff(kind: Kind)
      requires Valid()
      modifies this, session
      ensures Valid() && State() == StreamingTurn.CloseCutOff(writer.policy, old(State()), kind)
    {
      hide StreamingTurn.CommitAndClear;
      var index := IndexOf(kind);
      if index.None? {
        return;
      }
      writer.MarkTruncated(session, index.value);
      if !suppressOutput {
        Send(Upsert(index.value, session.entries[index.value]));
      }
      CommitAndClear(kind);
    }

    /** The stream's loop and its `finally`: whatever ended it, the run closes its entries and then the handler its
      * own. */
    method HandleUserMessage(chunks: seq<Chunk>, dropped: Option<Chunk>)
      requires Valid()
      modifies this, session, parser
      ensures Valid()
      ensures State() == EndTurn(writer.policy, births,
                DropChunk(writer.policy, ProcessChunks(writer.policy, births, old(State()), chunks), dropped))
    {
      hide StreamingTurn.ProcessChunk, StoreSupplied, StreamingTurn.FlushHeldText, StreamingTurn.CloseCutOff;
      var k := 0;
      while k < |chunks|
        invariant k <= |chunks| && Valid()
        invariant ProcessChunks(writer.policy, births, State(), chunks[k..])
               == ProcessChunks(writer.policy, births, old(State()), chunks)
      {
        assert chunks[k..][1..] == chunks[k + 1..];
        ProcessChunk(chunks[k]);
        k := k + 1;
      }
      if dropped.Some? && dropped.value.ToolResult? {
        AssignEntryIndices(dropped.value.supplied);
      }
      CloseRun();
      FlushHeldText();
      CloseCutOff(Thought);
      CloseCutOff(Answer);
    }

    method CloseRun()
      requires Valid()
      modifies session
      ensures Valid() && session.entries == TurnClosed(writer.policy, old(session.entries))
    {
      writer.CloseTurn(session);
    }
  }

  /** A user message answered on its session, from the user's entry to the last frame: the object does what `Turn`
    * says. */
  method AnswerUserMessage(session: Session, writer: EntryWriter, births: Births, sent: seq<Frame>, content: string,
      chunks: seq<Chunk>, dropped: Option<Chunk>) returns (frames: seq<Frame>)
    requires Usable(writer.policy)
    modifies session
    ensures var end := Turn(writer.policy, births, old(session.entries), sent, content, chunks, dropped);
            session.entries == end.entries && frames == end.frames
    ensures var was := old(session.entries);
            var said := UserEntry(content, Some(births.at(|was|)), false);
            var counted := Counted(writer.policy, births, was, sent, content, chunks, dropped);
            && |sent| < |frames| && frames[..|sent|] == sent && frames[|sent|] == Upsert(|was|, said)
            && |was| < counted <= |session.entries| <= counted + 1
            && session.entries[|was|] == if TooOld(writer.policy, counted, |was|) then Cleared(said) else said
  {
    QuestionIsStoredAndSent(writer.policy, births, session.entries, sent, content, chunks, dropped);
    hide EndTurn, ProcessChunks, BeginTurn, DropChunk;
    var handler := new TurnHandler(session, writer, births, sent, content);
    handler.HandleUserMessage(chunks, dropped);
    frames := handler.sent;
    assert handler.State() == Turn(writer.policy, births, old(session.entries), sent, content, chunks, dropped);
  }
}
