/** What a run of the tool loop says and sends, round by round, told from the provider's chunks and the tools' answers.
  *
  * `Tells` reads a finished trace against the world alone: which calls a round made, what was yielded after its
  * chunks, what the next request carries on, what usage was reported, and why the run went on or ended.
  */
module ToolRounds {
  import opened Wrappers
  import opened Sequences
  import opened ContextWindow
  import opened ToolLoop

  // ----- One round's chunks -----

  /** These are the calls among the chunks, each once and in order: `at` says where they stand. */
  predicate StandAt(chunks: seq<Chunk>, calls: seq<ToolCall>, at: seq<nat>) {
    PointsAt(chunks, calls, at) && Rises(at) && MissesNone(chunks, at)
  }

  predicate PointsAt(chunks: seq<Chunk>, calls: seq<ToolCall>, at: seq<nat>) {
    |at| == |calls| && forall k :: 0 <= k < |at| ==> at[k] < |chunks| && chunks[at[k]] == ToolUse(calls[k])
  }

  predicate Rises(at: seq<nat>) {
    forall a, b :: 0 <= a < b < |at| ==> at[a] < at[b]
  }

  predicate MissesNone(chunks: seq<Chunk>, at: seq<nat>) {
    forall i :: 0 <= i < |chunks| && chunks[i].ToolUse? ==> exists k :: 0 <= k < |at| && at[k] == i
  }

  ghost predicate AreTheCalls(chunks: seq<Chunk>, calls: seq<ToolCall>) {
    exists at: seq<nat> :: StandAt(chunks, calls, at)
  }

  /** The last chunk of this kind stands at i. */
  predicate LastAt(chunks: seq<Chunk>, kind: Chunk -> bool, i: nat) {
    i < |chunks| && kind(chunks[i]) && NoneFrom(chunks, kind, i + 1)
  }

  predicate NoneFrom(chunks: seq<Chunk>, kind: Chunk -> bool, from: nat) {
    forall j :: from <= j < |chunks| ==> !kind(chunks[j])
  }

  predicate IsStop(chunk: Chunk) {
    chunk.Stop?
  }

  predicate Reports(chunk: Chunk) {
    chunk.Stop? && chunk.usage.Some?
  }

  /** The last stop among the chunks gave this reason. */
  ghost predicate LastStopIs(chunks: seq<Chunk>, reason: string) {
    exists i: nat :: LastAt(chunks, IsStop, i) && chunks[i].reason == reason
  }

  ghost predicate AsksForTools(chunks: seq<Chunk>) {
    LastStopIs(chunks, "tool_use") && exists i :: 0 <= i < |chunks| && chunks[i].ToolUse?
  }

  /** The usage the last reporting stop gave, or none when none reported. */
  ghost predicate IsLastUsage(chunks: seq<Chunk>, usage: Option<Usage>) {
    if usage.None? then NoneFrom(chunks, Reports, 0)
    else exists i: nat :: LastAt(chunks, Reports, i) && chunks[i].usage == usage
  }

  /** Every position one further on. */
  function Moved(at: seq<nat>): (moved: seq<nat>)
    ensures |moved| == |at| && forall k :: 0 <= k < |at| ==> moved[k] == at[k] + 1
  {
    if at == [] then [] else [at[0] + 1] + Moved(at[1..])
  }

  lemma {:induction false} CallsStand(chunks: seq<Chunk>) returns (at: seq<nat>)
    ensures StandAt(chunks, CallsOf(chunks), at)
  {
    hide StandAt;
    if chunks == [] {
      at := [];
      NothingStands();
    } else {
      var later := CallsStand(chunks[1..]);
      at := (if chunks[0].ToolUse? then [0] else []) + Moved(later);
      StandsOneOn(chunks, CallsOf(chunks[1..]), later);
    }
  }

  lemma NothingStands()
    ensures StandAt([], [], [])
  {
  }

  lemma StandsOneOn(chunks: seq<Chunk>, calls: seq<ToolCall>, later: seq<nat>)
    requires chunks != [] && StandAt(chunks[1..], calls, later)
    ensures if chunks[0].ToolUse? then StandAt(chunks, [chunks[0].call] + calls, [0] + Moved(later))
            else StandAt(chunks, [] + calls, [] + Moved(later))
  {
    hide PointsAt, Rises, MissesNone, Moved;
    var moved := Moved(later);
    MovedPoint(chunks, calls, later);
    MovedRise(later);
    MovedMissNone(chunks, later);
    if chunks[0].ToolUse? {
      PointToFirst(chunks, chunks[0].call, calls, moved);
    } else {
      assert [] + moved == moved && [] + calls == calls;
    }
  }

  lemma MovedPoint(chunks: seq<Chunk>, calls: seq<ToolCall>, later: seq<nat>)
    requires chunks != [] && PointsAt(chunks[1..], calls, later)
    ensures PointsAt(chunks, calls, Moved(later))
  {
    var moved, rest := Moved(later), chunks[1..];
    forall k | 0 <= k < |moved|
      ensures moved[k] < |chunks| && chunks[moved[k]] == ToolUse(calls[k])
    {
      var i := later[k];
      assert rest[i] == chunks[i + 1];
    }
  }

  lemma PointToFirst(chunks: seq<Chunk>, first: ToolCall, calls: seq<ToolCall>, at: seq<nat>)
    requires chunks != [] && chunks[0] == ToolUse(first) && PointsAt(chunks, calls, at)
    ensures PointsAt(chunks, [first] + calls, [0] + at)
  {
    var more, all := [0] + at, [first] + calls;
    forall k | 0 <= k < |more|
      ensures more[k] < |chunks| && chunks[more[k]] == ToolUse(all[k])
    {
      if k > 0 {
        assert more[k] == at[k - 1] && all[k] == calls[k - 1];
      }
    }
  }

  lemma MovedRise(later: seq<nat>)
    requires Rises(later)
    ensures Rises(Moved(later)) && Rises([0] + Moved(later))
  {
  }

  lemma MovedMissNone(chunks: seq<Chunk>, later: seq<nat>)
    requires chunks != [] && MissesNone(chunks[1..], later)
    ensures MissesNone(chunks, [0] + Moved(later))
    ensures !chunks[0].ToolUse? ==> MissesNone(chunks, Moved(later))
  {
    var moved := Moved(later);
    assert ([0] + moved)[0] == 0;
    forall i | 1 <= i < |chunks| && chunks[i].ToolUse?
      ensures (exists k :: 0 <= k < |moved| && moved[k] == i) && exists k :: 0 <= k <= |moved| && ([0] + moved)[k] == i
    {
      assert chunks[1..][i - 1].ToolUse?;
      var k :| 0 <= k < |later| && later[k] == i - 1;
      assert moved[k] == i && ([0] + moved)[k + 1] == i;
    }
  }

  lemma CallsAre(chunks: seq<Chunk>)
    ensures AreTheCalls(chunks, CallsOf(chunks))
    ensures CallsOf(chunks) != [] <==> exists i :: 0 <= i < |chunks| && chunks[i].ToolUse?
  {
    var at := CallsStand(chunks);
    if CallsOf(chunks) != [] {
      assert chunks[at[0]].ToolUse?;
    }
  }

  lemma OneMoreLast(chunks: seq<Chunk>, kind: Chunk -> bool, i: nat)
    requires chunks != [] && !kind(chunks[|chunks| - 1])
    ensures LastAt(chunks[..|chunks| - 1], kind, i) ==> LastAt(chunks, kind, i)
    ensures NoneFrom(chunks[..|chunks| - 1], kind, i) ==> NoneFrom(chunks, kind, i)
  {
    var short := chunks[..|chunks| - 1];
    forall from: nat | NoneFrom(short, kind, from)
      ensures NoneFrom(chunks, kind, from)
    {
      forall j | from <= j < |chunks|
        ensures !kind(chunks[j])
      {
        if j < |short| {
          assert !kind(short[j]);
        }
      }
    }
  }

  lemma OneLast(chunks: seq<Chunk>, kind: Chunk -> bool, i: nat, j: nat)
    requires LastAt(chunks, kind, i) && LastAt(chunks, kind, j)
    ensures i == j
  {
  }

  lemma {:induction false} WhereItStops(chunks: seq<Chunk>) returns (i: Option<nat>)
    ensures if i.None? then NoneFrom(chunks, IsStop, 0) && ReasonOf(chunks) == ""
            else LastAt(chunks, IsStop, i.value) && chunks[i.value].reason == ReasonOf(chunks)
  {
    hide LastAt, NoneFrom;
    if chunks == [] {
      i := None;
      NoneInNone(IsStop);
    } else if chunks[|chunks| - 1].Stop? {
      i := Some(|chunks| - 1);
      LastIsLast(chunks, IsStop);
    } else {
      i := WhereItStops(chunks[..|chunks| - 1]);
      OneMoreLast(chunks, IsStop, if i.Some? then i.value else 0);
      if i.Some? {
        InRange(chunks[..|chunks| - 1], IsStop, i.value);
      }
    }
  }

  lemma NoneInNone(kind: Chunk -> bool)
    ensures NoneFrom([], kind, 0)
  {
  }

  lemma LastIsLast(chunks: seq<Chunk>, kind: Chunk -> bool)
    requires chunks != [] && kind(chunks[|chunks| - 1])
    ensures LastAt(chunks, kind, |chunks| - 1)
  {
  }

  lemma InRange(chunks: seq<Chunk>, kind: Chunk -> bool, i: nat)
    requires LastAt(chunks, kind, i)
    ensures i < |chunks| && kind(chunks[i])
  {
  }

  lemma ReasonIsLast(chunks: seq<Chunk>, reason: string)
    requires reason != ""
    ensures ReasonOf(chunks) == reason <==> LastStopIs(chunks, reason)
  {
    var at := WhereItStops(chunks);
    if i: nat :| LastAt(chunks, IsStop, i) && chunks[i].reason == reason {
      if at.Some? {
        OneLast(chunks, IsStop, i, at.value);
      } else {
        NoneIsNone(chunks, IsStop, i);
      }
    }
  }

  lemma NoneIsNone(chunks: seq<Chunk>, kind: Chunk -> bool, i: nat)
    requires NoneFrom(chunks, kind, 0)
    ensures !LastAt(chunks, kind, i)
  {
  }

  lemma ReportsAt(chunks: seq<Chunk>) returns (i: nat)
    requires IsLastUsage(chunks, UsageOf(chunks)) && UsageOf(chunks).Some?
    ensures LastAt(chunks, Reports, i) && i < |chunks| && Reports(chunks[i]) && chunks[i].usage == UsageOf(chunks)
  {
    i :| LastAt(chunks, Reports, i) && chunks[i].usage == UsageOf(chunks);
  }

  lemma {:induction false} UsageIsLast(chunks: seq<Chunk>)
    ensures IsLastUsage(chunks, UsageOf(chunks))
  {
    hide LastAt, NoneFrom;
    if chunks == [] {
      NoneInNone(Reports);
    } else if Reports(chunks[|chunks| - 1]) {
      LastIsLast(chunks, Reports);
    } else {
      var short := chunks[..|chunks| - 1];
      UsageIsLast(short);
      if UsageOf(short).Some? {
        var i := ReportsAt(short);
        OneMoreLast(chunks, Reports, i);
        assert LastAt(chunks, Reports, i) && chunks[i].usage == UsageOf(chunks);
      } else {
        OneMoreLast(chunks, Reports, 0);
      }
    }
  }

  // ----- What the tools gave -----

  function Sum(counts: seq<nat>): nat {
    if counts == [] then 0 else Sum(counts[..|counts| - 1]) + counts[|counts| - 1]
  }

  /** How many client messages each call returned. */
  function Counts(w: World, round: nat, calls: seq<ToolCall>): (counts: seq<nat>)
    ensures |counts| == |calls|
    ensures forall k :: 0 <= k < |calls| ==> counts[k] == w.tool(round, calls[k]).clientMessages
  {
    if calls == [] then [] else [w.tool(round, calls[0]).clientMessages] + Counts(w, round, calls[1..])
  }

  predicate SomeSuppresses(w: World, round: nat, calls: seq<ToolCall>) {
    exists k :: 0 <= k < |calls| && w.tool(round, calls[k]).suppress
  }

  /** Each call's own answer, under its own id. */
  predicate AreTheResults(w: World, round: nat, calls: seq<ToolCall>, results: seq<ToolResult>) {
    && |results| == |calls|
    && forall k :: 0 <= k < |calls| ==>
         var response := w.tool(round, calls[k]);
         results[k] == ToolResult(calls[k].id, response.result, response.isError)
  }

  lemma {:induction false} SumFromTheFront(counts: seq<nat>)
    requires counts != []
    ensures Sum(counts) == counts[0] + Sum(counts[1..])
  {
    var n := |counts| - 1;
    if n > 0 {
      SumFromTheFront(counts[..n]);
      assert counts[..n][1..] == counts[1..][..n - 1];
    }
  }

  lemma {:induction false} MessagesAreSummed(w: World, round: nat, calls: seq<ToolCall>)
    ensures ClientMessages(w, round, calls) == Sum(Counts(w, round, calls))
  {
    if calls != [] {
      MessagesAreSummed(w, round, calls[1..]);
      SumFromTheFront(Counts(w, round, calls));
      assert Counts(w, round, calls)[1..] == Counts(w, round, calls[1..]);
    }
  }

  lemma {:induction false} SuppressionIsAnys(w: World, round: nat, calls: seq<ToolCall>)
    ensures Suppresses(w, round, calls) <==> SomeSuppresses(w, round, calls)
  {
    if calls != [] {
      SuppressionIsAnys(w, round, calls[1..]);
      if SomeSuppresses(w, round, calls[1..]) {
        var k :| 0 <= k < |calls[1..]| && w.tool(round, calls[1..][k]).suppress;
        assert w.tool(round, calls[k + 1]).suppress;
      }
      if SomeSuppresses(w, round, calls) {
        var k :| 0 <= k < |calls| && w.tool(round, calls[k]).suppress;
        assert k > 0 ==> w.tool(round, calls[1..][k - 1]).suppress;
      }
    }
  }

  lemma {:induction false} ResultsAre(w: World, round: nat, calls: seq<ToolCall>)
    ensures AreTheResults(w, round, calls, ResultsFor(w, round, calls))
  {
    if calls != [] {
      ResultsAre(w, round, calls[1..]);
    }
  }

  // ----- The run -----

  /** A round whose tools ran: a result chunk for the messages they returned, if any, then the suppression, if any asked
    * for it, and the next request carries the calls and each one's result. */
  predicate ToolsHeard(w: World, round: nat, request: seq<Message>, next: seq<Message>, calls: seq<ToolCall>,
      own: seq<Chunk>)
  {
    var n := Sum(Counts(w, round, calls));
    && own == (if n > 0 then [ToolResultChunk(n)] else [])
              + (if SomeSuppresses(w, round, calls) then [SuppressOutput] else [])
    && |next| == |request| + 2 && next[..|request|] == request
    && next[|request|] == Calls(calls)
    && next[|request| + 1].Results? && AreTheResults(w, round, calls, next[|request| + 1].results)
  }

  /** The closing words of a spent budget, if the hook has any, and the closing stop. */
  predicate Closes(w: World, calls: seq<ToolCall>, closing: seq<Chunk>) {
    var sentence := w.closing(w.maxToolRounds, calls);
    if sentence == "" then closing == [Stop("tool_budget_exhausted", None)]
    else closing == [Text(sentence), Stop("tool_budget_exhausted", None)]
  }

  /** A run's last round: why it ended, and what it yielded of its own. */
  ghost predicate Ends(w: World, round: nat, r: Round, t: Trace) {
    && r.chunks <= t.yielded
    && var own := t.yielded[|r.chunks|..];
       if r.abandoned || r.fails then
         own == [] && t.reported == [] && t.executed == 0 && !t.exhausted
         && t.ending == (if r.abandoned then Abandoned else Failed)
       else
         && |t.reported| == 1 && IsLastUsage(r.chunks, t.reported[0])
         && if !(AsksForTools(r.chunks) && w.hasTools) then
              own == [] && t.ending == Finished && t.executed == 0 && !t.exhausted
            else if round >= w.maxToolRounds then
              && (exists calls :: AreTheCalls(r.chunks, calls) && Closes(w, calls, own))
              && t.ending == Finished && t.executed == 0 && t.exhausted
            else
              own == [] && w.abandonedInTools(round) && t.ending == Abandoned && t.executed == 1 && !t.exhausted
  }

  /** What is left of a trace after its first round. */
  function Later(t: Trace, said: nat): Trace
    requires t.requests != [] && said <= |t.yielded| && t.reported != [] && t.executed > 0
  {
    t.(requests := t.requests[1..], yielded := t.yielded[said..], reported := t.reported[1..],
      executed := t.executed - 1)
  }

  /** A round after which the run goes on. */
  ghost predicate GoesOnRightly(w: World, round: nat, r: Round, calls: seq<ToolCall>, own: seq<Chunk>, t: Trace)
    requires |t.requests| > 1
  {
    && !r.fails && !r.abandoned && AsksForTools(r.chunks) && w.hasTools
    && round < w.maxToolRounds && !w.abandonedInTools(round)
    && AreTheCalls(r.chunks, calls)
    && ToolsHeard(w, round, t.requests[0], t.requests[1], calls, own)
    && r.chunks + own <= t.yielded && t.reported != [] && t.executed > 0 && IsLastUsage(r.chunks, t.reported[0])
  }

  ghost predicate Tells(w: World, round: nat, t: Trace)
    decreases |t.requests|
  {
    && t.requests != []
    && var r := w.provider(round, t.requests[0]);
       if |t.requests| == 1 then Ends(w, round, r, t)
       else
         exists calls, own ::
           GoesOnRightly(w, round, r, calls, own, t) && Tells(w, round + 1, Later(t, |r.chunks + own|))
  }

  lemma ContinuesWhenAsked(w: World, chunks: seq<Chunk>)
    ensures Continues(w, chunks) <==> AsksForTools(chunks) && w.hasTools
  {
    hide CallsOf, ReasonOf;
    CallsAre(chunks);
    ReasonIsLast(chunks, "tool_use");
  }

  lemma LastRoundEnds(w: World, round: nat, messages: seq<Message>, text: string, usage: Option<Usage>)
    requires round <= w.maxToolRounds && !GoesOn(w, round, messages)
    ensures Ends(w, round, w.provider(round, messages), LastRound(w, round, messages, text, usage))
  {
    hide AreTheCalls, CallsOf, ReasonOf, UsageOf, TextOf, Continues, AsksForTools, IsLastUsage, Accumulate;
    var r := w.provider(round, messages);
    ContinuesWhenAsked(w, r.chunks);
    CallsAre(r.chunks);
    UsageIsLast(r.chunks);
    var t := LastRound(w, round, messages, text, usage);
    assert r.chunks <= t.yielded;
    if Completes(w, round, messages) && Continues(w, r.chunks) && round >= w.maxToolRounds {
      var sentence := w.closing(w.maxToolRounds, CallsOf(r.chunks));
      assert t.yielded[|r.chunks|..] == ClosingChunks(sentence);
      assert Closes(w, CallsOf(r.chunks), ClosingChunks(sentence));
    } else {
      assert t.yielded[|r.chunks|..] == [];
    }
  }

  lemma RoundTells(w: World, round: nat, messages: seq<Message>, text: string, usage: Option<Usage>)
    requires round <= w.maxToolRounds && GoesOn(w, round, messages)
    requires NextRounds(w, round, messages, text, usage).requests != []
    requires var chunks := w.provider(round, messages).chunks;
             NextRounds(w, round, messages, text, usage).requests[0] == WithRound(w, round, messages, CallsOf(chunks))
    ensures var r := w.provider(round, messages); var calls := CallsOf(r.chunks);
            var own := ToolChunks(w, round, calls); var t := RunFrom(w, round, messages, text, usage);
            && |t.requests| > 1 && GoesOnRightly(w, round, r, calls, own, t)
            && Later(t, |r.chunks + own|) == NextRounds(w, round, messages, text, usage)
  {
    hide AreTheCalls, CallsOf, ReasonOf, UsageOf, TextOf, Continues, AsksForTools, IsLastUsage, Accumulate, NextRounds,
      ResultsFor, AreTheResults, SomeSuppresses, Suppresses, ClientMessages, Counts, Sum;
    var r := w.provider(round, messages);
    var calls := CallsOf(r.chunks);
    ContinuesWhenAsked(w, r.chunks);
    CallsAre(r.chunks);
    UsageIsLast(r.chunks);
    MessagesAreSummed(w, round, calls);
    SuppressionIsAnys(w, round, calls);
    ResultsAre(w, round, calls);
  }

  lemma {:induction false} RequestsBegin(w: World, round: nat, messages: seq<Message>, text: string,
      usage: Option<Usage>)
    requires round <= w.maxToolRounds
    ensures var t := RunFrom(w, round, messages, text, usage); t.requests != [] && t.requests[0] == messages
  {
    hide NextRounds, Continues, ToolChunks, CallsOf, UsageOf, TextOf, ClosingChunks;
  }

  /** Every run is told by its provider and its tools: round by round its chunks are yielded, then one result chunk with
    * the number of client messages its tools returned, if any, then one suppression if any of them asked; the next
    * request carries the calls and their results; and it goes on, or ends as it does, for the reason it should. */
  lemma {:induction false} RunTells(w: World, round: nat, messages: seq<Message>, text: string, usage: Option<Usage>)
    requires round <= w.maxToolRounds
    ensures Tells(w, round, RunFrom(w, round, messages, text, usage))
    decreases w.maxToolRounds - round
  {
    hide Ends, GoesOnRightly, GoesOn, LastRound, CallsOf, ToolChunks, TextOf, UsageOf, WithRound, Accumulate;
    RequestsBegin(w, round, messages, text, usage);
    var t := RunFrom(w, round, messages, text, usage);
    if GoesOn(w, round, messages) {
      var chunks := w.provider(round, messages).chunks;
      var grown := WithRound(w, round, messages, CallsOf(chunks));
      assert round < w.maxToolRounds by { BelowBudget(w, round, messages); }
      RequestsBegin(w, round + 1, grown, text + TextOf(chunks), Accumulate(usage, UsageOf(chunks)));
      RoundTells(w, round, messages, text, usage);
      RunTells(w, round + 1, grown, text + TextOf(chunks), Accumulate(usage, UsageOf(chunks)));
    } else {
      LastRoundEnds(w, round, messages, text, usage);
      OneRequest(w, round, messages, text, usage);
    }
  }

  lemma BelowBudget(w: World, round: nat, messages: seq<Message>)
    requires GoesOn(w, round, messages)
    ensures round < w.maxToolRounds
  {
  }

  lemma OneRequest(w: World, round: nat, messages: seq<Message>, text: string, usage: Option<Usage>)
    requires round <= w.maxToolRounds && !GoesOn(w, round, messages)
    ensures RunFrom(w, round, messages, text, usage) == LastRound(w, round, messages, text, usage)
    ensures |LastRound(w, round, messages, text, usage).requests| == 1
  {
  }
}
