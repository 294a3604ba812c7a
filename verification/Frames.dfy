/** The wire frames, what a client folds them into, and what a resume replays.
  *
  * `Seen` is what a client holds at one index after a log of frames; `Phase` is how far that
  * index has come through the life of a streamed entry. Both fold a log from its first frame.
  */
module Frames {
  import opened Wrappers
  import opened SessionEntries

  datatype Frame =
    | Upsert(index: nat, entry: Entry)
    | Delta(index: nat, delta: string)
    | Commit(index: nat)
    | Skip(index: nat)

  // ----- The client -----

  datatype View = Unseen | Held(entry: Entry) | Skipped

  function Received(view: View, frame: Frame, i: nat): View {
    if frame.index != i then view
    else match frame
      case Upsert(_, entry) => Held(entry)
      case Skip(_) => Skipped
      case Delta(_, delta) =>
        if view.Held? && view.entry.ModelEntry? then Held(view.entry.(content := view.entry.content + delta)) else view
      case Commit(_) =>
        if view.Held? && view.entry.ModelEntry? then Held(view.entry.(isStreaming := false)) else view
  }

  function Seen(frames: seq<Frame>, i: nat): View {
    if frames == [] then Unseen else Received(Seen(frames[..|frames| - 1], i), frames[|frames| - 1], i)
  }

  lemma SeenAfter(frames: seq<Frame>, frame: Frame, i: nat)
    ensures Seen(frames + [frame], i) == Received(Seen(frames, i), frame, i)
  {
    assert (frames + [frame])[..|frames|] == frames;
  }

  // ----- The life of a streamed entry on the wire -----

  /** Fresh; skipped once and for all; opened; at least one delta; cut short; committed; retracted. */
  datatype Phase = Fresh | Hidden | Opened | Flowing | Recut | Done | Blanked | Broken

  function Moved(phase: Phase, frame: Frame, i: nat): Phase {
    if frame.index != i then phase
    else match frame
      case Skip(_) => if phase.Fresh? then Hidden else Broken
      case Delta(_, delta) => if (phase.Opened? || phase.Flowing?) && delta != "" then Flowing else Broken
      case Commit(_) => if phase.Flowing? || phase.Recut? then Done else Broken
      case Upsert(_, entry) =>
        if !entry.ModelEntry? then Broken
        else if phase.Fresh? && entry.content == "" && entry.isStreaming then Opened
        else if phase.Flowing? && entry.truncated then Recut
        else if phase.Done? && entry.content == "" then Blanked
        else Broken
  }

  function Life(frames: seq<Frame>, i: nat): Phase {
    if frames == [] then Fresh else Moved(Life(frames[..|frames| - 1], i), frames[|frames| - 1], i)
  }

  lemma LifeAfter(frames: seq<Frame>, frame: Frame, i: nat)
    ensures Life(frames + [frame], i) == Moved(Life(frames, i), frame, i)
  {
    assert (frames + [frame])[..|frames|] == frames;
  }

  // ----- The resume -----

  predicate IsHidden(entry: Entry) {
    entry.cleared || (entry.ModelEntry? && entry.suppressed)
  }

  /** An entry of a turn still running is shown cut off: its stream goes to the socket that started it. */
  function ReplayEntry(index: nat, entry: Entry): Frame {
    if IsHidden(entry) then Skip(index)
    else if IsOpen(entry) then Upsert(index, entry.(isStreaming := false, truncated := true))
    else Upsert(index, entry)
  }

  function Replay(entries: seq<Entry>): (frames: seq<Frame>)
    ensures |frames| == |entries|
    ensures forall i :: 0 <= i < |frames| ==> frames[i] == ReplayEntry(i, entries[i])
  {
    if entries == [] then []
    else Replay(entries[..|entries| - 1]) + [ReplayEntry(|entries| - 1, entries[|entries| - 1])]
  }

  /** What a resumed client holds at each index is exactly what the frame for that index carries. */
  lemma {:induction false} SeenOfReplay(entries: seq<Entry>, i: nat)
    ensures Seen(Replay(entries), i)
         == if i < |entries| then Received(Unseen, ReplayEntry(i, entries[i]), i) else Unseen
  {
    if entries != [] {
      var last := |entries| - 1;
      SeenOfReplay(entries[..last], i);
      SeenAfter(Replay(entries[..last]), ReplayEntry(last, entries[last]), i);
    }
  }

  predicate IsBlank(entry: Entry) {
    entry.ModelEntry? && entry.content == ""
  }

  /** A live client and a resumed one agree: both hold the same entry, or the one skips what the other never saw or saw
    * blanked. */
  predicate Agree(live: View, resumed: View) {
    if resumed.Skipped? then live.Skipped? || (live.Held? && IsBlank(live.entry))
    else live == resumed
  }

  /** Agreement at an index, read off the stored entry: closed entries replay as they are stored. */
  predicate Faithful(live: View, entry: Entry) {
    if IsHidden(entry) then live.Skipped? || (live.Held? && IsBlank(live.entry)) else live == Held(entry)
  }

  lemma FaithfulIsAgreement(live: View, entries: seq<Entry>, i: nat)
    requires i < |entries| && !IsOpen(entries[i])
    ensures Faithful(live, entries[i]) <==> Agree(live, Seen(Replay(entries), i))
  {
    hide Seen, Replay;
    SeenOfReplay(entries, i);
  }
}
