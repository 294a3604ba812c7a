/** The two ways a turn can leave a live client disagreeing with a resumed one, each with an input that does. */
module TurnMishaps {
  import opened Wrappers
  import opened ThinkingTags
  import opened ParserRefinements
  import opened SessionEntries
  import opened Frames
  import opened StreamingTurn
  import opened TurnInvariant
  import opened TurnSteps
  import opened TurnTheorems

  /** A whole thought, then a lone angle bracket, then no stop: four chunks the parser cuts nowhere. */
  const CUT_AFTER_THOUGHT: seq<Chunk> :=
    [TextChunk(OPEN_TAG), TextChunk("a"), TextChunk(CLOSE_TAG), TextChunk("<")]

  lemma DrainWholeTag(inside: bool)
    ensures Drain(TagFor(inside), inside) == Drained([], "", !inside)
  {
    var tag := TagFor(inside);
    assert StandsAt(tag, tag, 0);
    assert tag[..0] == "" && tag[|tag|..] == "";
    DrainAtTag(tag, inside, 0);
  }

  lemma DrainShort(buffer: string, inside: bool, held: nat)
    requires 0 < |buffer| < |TagFor(inside)| && held == |buffer| - PartialMatch(buffer, TagFor(inside))
    ensures Drain(buffer, inside) == Drained(Emitted(KindFor(inside), buffer[..held]), buffer[held..], inside)
  {
    hide TagFor;
    assert IndexFrom(buffer, TagFor(inside), 0).None?;
    DrainAtHeld(buffer, inside, held);
  }

  lemma SegmentLeaves(policy: Policy, births: Births, st: Stream, content: string)
    requires Usable(policy)
    ensures var next := StreamSegment(policy, births, st, Thought, content);
            && next.thinkingIndex.Some? && next.suppressOutput == st.suppressOutput
            && next.buffer == st.buffer && next.inside == st.inside
  {
  }

  lemma FedThought(policy: Policy, births: Births, st: Stream)
    requires Usable(policy) && st.buffer == "" && !st.inside
    ensures var next := ProcessChunks(policy, births, st, CUT_AFTER_THOUGHT);
            && next.thinkingIndex.Some? && next.suppressOutput == st.suppressOutput
            && next.buffer == "<" && !next.inside
  {
    hide StreamSegment, TagFor, Drain, ProcessText;
    TagsAre();
    DrainWholeTag(false);
    DrainLetter();
    DrainWholeTag(true);
    DrainBracket();
    var chunks := CUT_AFTER_THOUGHT;
    var one := ProcessText(policy, births, st, OPEN_TAG);
    TextFedAsOne(policy, births, st, OPEN_TAG);
    var two := ProcessText(policy, births, one, "a");
    TextFedAsOne(policy, births, one, "a");
    OneSegment(policy, births, one, Segment(Thought, "a"));
    SegmentLeaves(policy, births, one, "a");
    var three := ProcessText(policy, births, two, CLOSE_TAG);
    TextFedAsOne(policy, births, two, CLOSE_TAG);
    var four := ProcessText(policy, births, three, "<");
    TextFedAsOne(policy, births, three, "<");
    assert ProcessChunks(policy, births, st, chunks) == ProcessChunks(policy, births, one, chunks[1..]);
    assert ProcessChunks(policy, births, one, chunks[1..]) == ProcessChunks(policy, births, two, chunks[1..][1..]);
    assert ProcessChunks(policy, births, two, chunks[1..][1..])
      == ProcessChunks(policy, births, three, chunks[1..][1..][1..]);
    assert chunks[1..][1..][1..] == [TextChunk("<")];
    assert ProcessChunks(policy, births, three, [TextChunk("<")]) == ProcessChunks(policy, births, four, []);
  }

  lemma TextFedAsOne(policy: Policy, births: Births, st: Stream, text: string)
    requires Usable(policy) && st.buffer == ""
    ensures var d := Drain(text, st.inside);
            ProcessText(policy, births, st, text)
            == HandleSegments(policy, births, st.(buffer := d.buffer, inside := d.inside), d.segments)
  {
    hide Drain, HandleSegments;
    assert "" + text == text;
  }

  lemma TagsAre()
    ensures TagFor(false) == OPEN_TAG && TagFor(true) == CLOSE_TAG
  {
  }

  lemma DrainLetter()
    ensures Drain("a", true) == Drained([Segment(Thought, "a")], "", true)
  {
    hide Drain, PartialMatch;
    assert "a"[0..][0] == 'a' && CLOSE_TAG[..1][0] == '<';
    assert !EndsWithPart("a", CLOSE_TAG, 1);
    DrainShort("a", true, 1);
    assert "a"[..1] == "a" && "a"[1..] == "";
  }

  lemma DrainBracket()
    ensures Drain("<", false) == Drained([], "<", false)
  {
    assert EndsWithPart("<", OPEN_TAG, 1);
    DrainShort("<", false, 0);
  }

  lemma OneSegment(policy: Policy, births: Births, st: Stream, segment: Segment)
    requires Usable(policy)
    ensures HandleSegments(policy, births, st, [segment]) == HandleSegment(policy, births, st, segment)
  {
    hide HandleSegment;
    assert [segment][1..] == [];
  }

  /** The stranded thought: the run stores it as cut short, and no frame ever says so to the client that watched it. */
  lemma StrandingHappens(births: Births)
    ensures var end := Turn(NO_POLICY, births, [], [], "q", CUT_AFTER_THOUGHT, None);
            exists i: nat :: !Agree(Seen(end.frames, i), Seen(Replay(end.entries), i))
  {
    hide Turn, Seen, Agree, Replay, ProcessChunks, Life;
    var begun := BeginTurn(NO_POLICY, births, [], [], "q");
    FedThought(NO_POLICY, births, begun);
    assert Mishaps(Streamed(births, [], [], "q", CUT_AFTER_THOUGHT), None) != {};
    NothingIsAtRest();
    LiveAgreesWithReplay(births, [], [], "q", CUT_AFTER_THOUGHT, None);
  }

  lemma NothingIsAtRest()
    ensures AtRest([], [], {})
  {
  }

  /** The unsent entry: stored for a chunk that the handler then dropped as abandoned, so only a resume shows it. The
    * signal must be aborted between the two, where only microtasks run: a caller's abort can fall there, a close event
    * cannot. */
  lemma UnsentHappens(births: Births)
    ensures var end := Turn(NO_POLICY, births, [], [], "q", [], Some(ToolResult([ToolEntry("t", map[], None, false)])));
            exists i: nat :: !Agree(Seen(end.frames, i), Seen(Replay(end.entries), i))
  {
    hide Turn, Seen, Agree, Replay, Life;
    var dropped := Some(ToolResult([ToolEntry("t", map[], None, false)]));
    var st := Streamed(births, [], [], "q", []);
    assert |st.entries| in Unsent(st, dropped);
    NothingIsAtRest();
    LiveAgreesWithReplay(births, [], [], "q", [], dropped);
  }
}
