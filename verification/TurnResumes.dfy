/** What a client that resumes is shown while a turn is still running. */
module TurnResumes {
  import opened Wrappers
  import opened ThinkingTags
  import opened SessionEntries
  import opened Frames
  import opened StreamingTurn
  import opened TurnInvariant
  import opened TurnSteps
  import opened TurnTheorems

  /** The view a live client holds, as a resume shows it: an entry still streaming is shown cut off. */
  function ShownCutOff(live: View): View {
    if live.Held? && IsOpen(live.entry) then Held(live.entry.(isStreaming := false, truncated := true)) else live
  }

  /** At any point of a turn that began in agreement, a client that resumes sees what the live one sees, its open
    * entries cut off; a hidden open entry is skipped by both. */
  lemma ResumeInMidTurn(births: Births, entries: seq<Entry>, frames: seq<Frame>, content: string, chunks: seq<Chunk>,
      i: nat)
    requires AtRest(entries, frames, {}) && forall c :: c in chunks ==> Ordinary(c)
    ensures var st := Streamed(births, entries, frames, content, chunks);
            Agree(ShownCutOff(Seen(st.frames, i)), Seen(Replay(st.entries), i))
  {
    hide AtRest, BeginTurn, ProcessChunks, Spoken;
    var begun := BeginTurn(NO_POLICY, births, entries, frames, content);
    var st := Streamed(births, entries, frames, content, chunks);
    BeginKeeps(births, entries, frames, content, {});
    ChunksKeep(births, begun, chunks, {});
    hide Seen, Life, Replay, Distinct;
    SeenOfReplay(st.entries, i);
    if i < |st.entries| {
      assert IndexOk(st, {}, false, i);
    }
  }
}
