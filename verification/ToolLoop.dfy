/** The orchestrator's tool loop: rounds of provider call and tool execution, bounded by a budget.
  *
  * The provider, the tools and the exhaustion hook are any functions of what they are given; a
  * provider call is a finite run of chunks that may end in a failure, and the turn may be
  * abandoned at the end of a round or while its tools ran.
  */
module ToolLoop {
  import opened Wrappers
  import opened Sequences
  import opened ContextWindow
  import opened SessionEntries

  datatype Usage = Usage(inputTokens: nat, outputTokens: nat, totalTokens: nat)

  datatype Chunk =
    | Text(text: string)
    | ToolUse(call: ToolCall)
    | Stop(reason: string, usage: Option<Usage>)
    | ToolResultChunk(entries: nat)
    | SuppressOutput

  datatype Round = Round(chunks: seq<Chunk>, fails: bool, abandoned: bool)

  /** What a round's tools gave back: one result a call, how many client messages, and whether to suppress. */
  datatype Response = Response(result: string, isError: bool, clientMessages: nat, suppress: bool)

  datatype World = World(
    maxToolRounds: nat,
    hasTools: bool,
    provider: (nat, seq<Message>) -> Round,
    tool: (nat, ToolCall) -> Response,
    abandonedInTools: nat -> bool,
    closing: (nat, seq<ToolCall>) -> string)

  datatype Ending = Finished | Failed | Abandoned

  /** A whole run: the messages of each provider call, every chunk yielded, and what the closing hook is handed. */
  datatype Trace = Trace(
    requests: seq<seq<Message>>,
    yielded: seq<Chunk>,
    executed: nat,
    reported: seq<Option<Usage>>,
    ending: Ending,
    responseText: string,
    totalUsage: Option<Usage>,
    exhausted: bool)

  // ----- One round's totals -----

  function TextOf(chunks: seq<Chunk>): string {
    if chunks == [] then "" else (if chunks[0].Text? then chunks[0].text else "") + TextOf(chunks[1..])
  }

  function CallsOf(chunks: seq<Chunk>): seq<ToolCall> {
    if chunks == [] then [] else (if chunks[0].ToolUse? then [chunks[0].call] else []) + CallsOf(chunks[1..])
  }

  /** The last stop's reason, and the last usage any stop reported. */
  function ReasonOf(chunks: seq<Chunk>): string {
    if chunks == [] then ""
    else
      var last := chunks[|chunks| - 1];
      if last.Stop? then last.reason else ReasonOf(chunks[..|chunks| - 1])
  }

  function UsageOf(chunks: seq<Chunk>): Option<Usage> {
    if chunks == [] then None
    else
      var last := chunks[|chunks| - 1];
      if last.Stop? && last.usage.Some? then last.usage else UsageOf(chunks[..|chunks| - 1])
  }

  function Accumulate(acc: Option<Usage>, next: Option<Usage>): Option<Usage> {
    if acc.None? then next
    else if next.None? then acc
    else Some(Usage(acc.value.inputTokens + next.value.inputTokens, acc.value.outputTokens + next.value.outputTokens,
                    acc.value.totalTokens + next.value.totalTokens))
  }

  lemma {:induction false} TextConcat(a: seq<Chunk>, b: seq<Chunk>)
    ensures TextOf(a + b) == TextOf(a) + TextOf(b)
  {
    if a == [] {
      assert a + b == b;
    } else {
      TextConcat(a[1..], b);
      assert (a + b)[1..] == a[1..] + b;
      Associative(if a[0].Text? then a[0].text else "", TextOf(a[1..]), TextOf(b));
    }
  }

  // ----- The loop -----

  predicate Continues(w: World, chunks: seq<Chunk>) {
    ReasonOf(chunks) == "tool_use" && CallsOf(chunks) != [] && w.hasTools
  }

  function ResultsFor(w: World, round: nat, calls: seq<ToolCall>): (results: seq<ToolResult>)
    ensures Answers(calls, results)
  {
    if calls == [] then []
    else
      var response := w.tool(round, calls[0]);
      [ToolResult(calls[0].id, response.result, response.isError)] + ResultsFor(w, round, calls[1..])
  }

  function ClientMessages(w: World, round: nat, calls: seq<ToolCall>): nat {
    if calls == [] then 0 else w.tool(round, calls[0]).clientMessages + ClientMessages(w, round, calls[1..])
  }

  predicate Suppresses(w: World, round: nat, calls: seq<ToolCall>) {
    calls != [] && (w.tool(round, calls[0]).suppress || Suppresses(w, round, calls[1..]))
  }

  /** What the loop yields of its own after a round of tools: a result chunk for any client message, and the
    * suppression. */
  function OwnChunks(clientMessages: nat, suppress: bool): seq<Chunk> {
    (if clientMessages > 0 then [ToolResultChunk(clientMessages)] else []) + (if suppress then [SuppressOutput] else [])
  }

  function ToolChunks(w: World, round: nat, calls: seq<ToolCall>): seq<Chunk> {
    OwnChunks(ClientMessages(w, round, calls), Suppresses(w, round, calls))
  }

  function ClosingChunks(sentence: string): seq<Chunk> {
    (if sentence != "" then [Text(sentence)] else []) + [Stop("tool_budget_exhausted", None)]
  }

  /** A run that went on as `rest` after what it had already done. */
  function After(requests: seq<seq<Message>>, yielded: seq<Chunk>, executed: nat, reported: seq<Option<Usage>>,
      rest: Trace): Trace {
    rest.(requests := requests + rest.requests, yielded := yielded + rest.yielded, executed := executed + rest.executed,
          reported := reported + rest.reported)
  }

  function WithRound(w: World, round: nat, messages: seq<Message>, calls: seq<ToolCall>): seq<Message> {
    messages + [Calls(calls), Results(ResultsFor(w, round, calls))]
  }

  /** Whether the loop goes round again: only then are tools run and their results sent on. */
  predicate GoesOn(w: World, round: nat, messages: seq<Message>) {
    var r := w.provider(round, messages);
    !r.fails && !r.abandoned && Continues(w, r.chunks) && round < w.maxToolRounds && !w.abandonedInTools(round)
  }

  /** The round a run ends with: a failure, an abandonment, an answer, or a spent budget. */
  function LastRound(w: World, round: nat, messages: seq<Message>, text: string, usage: Option<Usage>): Trace {
    var r := w.provider(round, messages);
    if r.abandoned || r.fails then
      Trace([messages], r.chunks, 0, [], if r.abandoned then Abandoned else Failed, text, usage, false)
    else
      var text' := text + TextOf(r.chunks);
      var reported := [UsageOf(r.chunks)];
      var usage' := Accumulate(usage, UsageOf(r.chunks));
      if !Continues(w, r.chunks) then Trace([messages], r.chunks, 0, reported, Finished, text', usage', false)
      else if round >= w.maxToolRounds then
        var sentence := w.closing(w.maxToolRounds, CallsOf(r.chunks));
        Trace([messages], r.chunks + ClosingChunks(sentence), 0, reported, Finished, text' + sentence, usage', true)
      else Trace([messages], r.chunks, 1, reported, Abandoned, text', usage', false)
  }

  function RunFrom(w: World, round: nat, messages: seq<Message>, text: string, usage: Option<Usage>): Trace
    requires round <= w.maxToolRounds
    decreases w.maxToolRounds - round, 1
  {
    if !GoesOn(w, round, messages) then LastRound(w, round, messages, text, usage)
    else
      var chunks := w.provider(round, messages).chunks;
      After([messages], chunks + ToolChunks(w, round, CallsOf(chunks)), 1, [UsageOf(chunks)],
        NextRounds(w, round, messages, text, usage))
  }

  /** What follows a round whose tools were run. */
  function NextRounds(w: World, round: nat, messages: seq<Message>, text: string, usage: Option<Usage>): Trace
    requires round <= w.maxToolRounds && GoesOn(w, round, messages)
    decreases w.maxToolRounds - round, 0
  {
    var chunks := w.provider(round, messages).chunks;
    RunFrom(w, round + 1, WithRound(w, round, messages, CallsOf(chunks)), text + TextOf(chunks),
      Accumulate(usage, UsageOf(chunks)))
  }

  // ----- What holds of every run -----

  /** At most maxToolRounds rounds of tools are executed, and at most one provider call more than that is made. */
  lemma {:induction false} RunIsBounded(w: World, round: nat, messages: seq<Message>, text: string,
      usage: Option<Usage>)
    requires round <= w.maxToolRounds
    ensures var t := RunFrom(w, round, messages, text, usage);
            && 1 <= |t.requests| <= w.maxToolRounds - round + 1
            && t.executed <= w.maxToolRounds - round
            && |t.requests| - 1 <= t.executed <= |t.requests|
    decreases w.maxToolRounds - round
  {
    hide TextOf, CallsOf, ReasonOf, UsageOf, ToolChunks, ClosingChunks, WithRound;
    if GoesOn(w, round, messages) {
      hide LastRound;
      var chunks := w.provider(round, messages).chunks;
      RunIsBounded(w, round + 1, WithRound(w, round, messages, CallsOf(chunks)), text + TextOf(chunks),
        Accumulate(usage, UsageOf(chunks)));
    }
  }

  /** The one provider call past the budget, the one that reads the last results, asks for tools again. */
  predicate AsksBeyond(w: World, round: nat, t: Trace)
    requires round <= w.maxToolRounds
  {
    && |t.requests| == w.maxToolRounds - round + 1
    && var last := w.provider(w.maxToolRounds, t.requests[|t.requests| - 1]);
       !last.fails && !last.abandoned && Continues(w, last.chunks)
  }

  /** The budget is called spent exactly then, and the run then finishes with the closing stop as its last chunk. */
  lemma {:induction false} ExhaustedIsAskingBeyond(w: World, round: nat, messages: seq<Message>, text: string,
      usage: Option<Usage>)
    requires round <= w.maxToolRounds
    ensures var t := RunFrom(w, round, messages, text, usage);
            && (t.exhausted <==> AsksBeyond(w, round, t))
            && (t.exhausted ==> t.ending.Finished? && t.executed == w.maxToolRounds - round
                                && t.yielded != [] && t.yielded[|t.yielded| - 1] == Stop("tool_budget_exhausted", None))
    decreases w.maxToolRounds - round
  {
    hide TextOf, CallsOf, ReasonOf, UsageOf, ToolChunks, WithRound, Continues, Accumulate;
    RunIsBounded(w, round, messages, text, usage);
    if GoesOn(w, round, messages) {
      hide LastRound;
      var chunks := w.provider(round, messages).chunks;
      ExhaustedIsAskingBeyond(w, round + 1, WithRound(w, round, messages, CallsOf(chunks)), text + TextOf(chunks),
        Accumulate(usage, UsageOf(chunks)));
    }
  }

  lemma {:induction false} PairedGrows(messages: seq<Message>, calls: seq<ToolCall>, results: seq<ToolResult>)
    requires Paired(messages) && Answers(calls, results)
    ensures Paired(messages + [Calls(calls), Results(results)])
    decreases |messages|
  {
    var more := [Calls(calls), Results(results)];
    if messages == [] {
      assert messages + more == more && more[2..] == [];
    } else if messages[0].Words? {
      PairedGrows(messages[1..], calls, results);
      assert (messages + more)[1..] == messages[1..] + more;
    } else {
      PairedGrows(messages[2..], calls, results);
      assert (messages + more)[2..] == messages[2..] + more;
    }
  }

  /** The request carries what `messages` held and one call and one result message for each round since. */
  predicate Extends(request: seq<Message>, messages: seq<Message>, rounds: nat) {
    |request| == |messages| + 2 * rounds && request[..|messages|] == messages
  }

  predicate WellFormed(requests: seq<seq<Message>>, messages: seq<Message>) {
    forall i :: 0 <= i < |requests| ==> Paired(requests[i]) && Extends(requests[i], messages, i)
  }

  lemma FirstThenRest(messages: seq<Message>, grown: seq<Message>, rest: seq<seq<Message>>)
    requires Paired(messages) && Extends(grown, messages, 1)
    requires WellFormed(rest, grown)
    ensures WellFormed([messages] + rest, messages)
  {
    hide Paired;
    assert messages[..|messages|] == messages;
    forall i | 1 <= i < |rest| + 1
      ensures Paired(([messages] + rest)[i]) && Extends(([messages] + rest)[i], messages, i)
    {
      var request := rest[i - 1];
      assert ([messages] + rest)[i] == request && Extends(request, grown, i - 1);
      assert request[..|messages|] == request[..|grown|][..|messages|];
    }
  }

  /** At every provider call, each tool call is directly followed by its results, in order, and nothing sent before is
    * unsent. */
  lemma {:induction false} EveryRequestIsPaired(w: World, round: nat, messages: seq<Message>, text: string,
      usage: Option<Usage>)
    requires round <= w.maxToolRounds && Paired(messages)
    ensures WellFormed(RunFrom(w, round, messages, text, usage).requests, messages)
    decreases w.maxToolRounds - round
  {
    hide TextOf, CallsOf, ReasonOf, UsageOf, ToolChunks, ResultsFor, Continues, Accumulate;
    assert messages[..|messages|] == messages;
    if GoesOn(w, round, messages) {
      hide LastRound;
      var chunks := w.provider(round, messages).chunks;
      var calls := CallsOf(chunks);
      var grown := WithRound(w, round, messages, calls);
      PairedGrows(messages, calls, ResultsFor(w, round, calls));
      EveryRequestIsPaired(w, round + 1, grown, text + TextOf(chunks), Accumulate(usage, UsageOf(chunks)));
      assert grown[..|messages|] == messages;
      assert Extends(grown, messages, 1);
      FirstThenRest(messages, grown, NextRounds(w, round, messages, text, usage).requests);
    }
  }

  /** A turn over any session and any context bounds: every request a provider sees is well formed. */
  lemma TurnRequestsArePaired(w: World, config: Config, entries: seq<Entry>)
    ensures var t := RunFrom(w, 0, Window(config, Convert(entries, 0)), "", None);
            forall i :: 0 <= i < |t.requests| ==> Paired(t.requests[i])
  {
    HistoryIsPaired(config, entries);
    EveryRequestIsPaired(w, 0, Window(config, Convert(entries, 0)), "", None);
  }

  lemma OwnTextIsEmpty(clientMessages: nat, suppress: bool)
    ensures TextOf(OwnChunks(clientMessages, suppress)) == ""
  {
    var last: seq<Chunk> := [SuppressOutput];
    assert last[1..] == [] && TextOf(last) == "";
    if clientMessages > 0 {
      var own := OwnChunks(clientMessages, suppress);
      assert own[1..] == if suppress then last else [];
    }
  }

  lemma ClosingText(sentence: string)
    ensures TextOf(ClosingChunks(sentence)) == sentence
  {
    var stop := [Stop("tool_budget_exhausted", None)];
    assert stop[1..] == [];
    assert TextOf(stop) == "";
    if sentence == "" {
      assert ClosingChunks(sentence) == stop;
    } else {
      assert ClosingChunks(sentence)[1..] == stop;
      assert sentence + "" == sentence;
    }
  }

  /** A finished run hands on exactly the text it yielded, the closing sentence of a spent budget included. */
  lemma {:induction false} TextIsWhatWasYielded(w: World, round: nat, messages: seq<Message>, text: string,
      usage: Option<Usage>)
    requires round <= w.maxToolRounds
    ensures var t := RunFrom(w, round, messages, text, usage);
            t.ending.Finished? ==> t.responseText == text + TextOf(t.yielded)
    decreases w.maxToolRounds - round
  {
    hide TextOf, CallsOf, ReasonOf, UsageOf, OwnChunks, WithRound, ClosingChunks, Continues, Accumulate;
    var chunks := w.provider(round, messages).chunks;
    if GoesOn(w, round, messages) {
      hide LastRound;
      var calls := CallsOf(chunks);
      var own := ToolChunks(w, round, calls);
      var rest := NextRounds(w, round, messages, text, usage);
      TextIsWhatWasYielded(w, round + 1, WithRound(w, round, messages, calls), text + TextOf(chunks),
        Accumulate(usage, UsageOf(chunks)));
      TextConcat(chunks + own, rest.yielded);
      TextConcat(chunks, own);
      OwnTextIsEmpty(ClientMessages(w, round, calls), Suppresses(w, round, calls));
      assert TextOf(chunks) + "" == TextOf(chunks);
      Associative(text, TextOf(chunks), TextOf(rest.yielded));
    } else {
      var sentence := w.closing(w.maxToolRounds, CallsOf(chunks));
      TextConcat(chunks, ClosingChunks(sentence));
      ClosingText(sentence);
      Associative(text, TextOf(chunks), sentence);
    }
  }

  /** The tokens of one kind a list of reports adds up to. */
  function SumOf(count: Usage -> nat, reported: seq<Option<Usage>>): nat {
    if reported == [] then 0
    else (if reported[0].Some? then count(reported[0].value) else 0) + SumOf(count, reported[1..])
  }

  predicate IsSum(total: Option<Usage>, reported: seq<Option<Usage>>) {
    && (total.Some? <==> exists i :: 0 <= i < |reported| && reported[i].Some?)
    && (total.Some? ==>
          total.value == Usage(SumOf((u: Usage) => u.inputTokens, reported),
                               SumOf((u: Usage) => u.outputTokens, reported),
                               SumOf((u: Usage) => u.totalTokens, reported)))
  }

  function FoldUsage(acc: Option<Usage>, reported: seq<Option<Usage>>): Option<Usage>
    decreases |reported|
  {
    if reported == [] then acc else FoldUsage(Accumulate(acc, reported[0]), reported[1..])
  }

  lemma {:induction false} UsageIsFolded(w: World, round: nat, messages: seq<Message>, text: string,
      usage: Option<Usage>)
    requires round <= w.maxToolRounds
    ensures var t := RunFrom(w, round, messages, text, usage); t.totalUsage == FoldUsage(usage, t.reported)
    decreases w.maxToolRounds - round
  {
    hide TextOf, CallsOf, ReasonOf, UsageOf, ToolChunks, WithRound, ClosingChunks, Continues;
    var chunks := w.provider(round, messages).chunks;
    var one := [UsageOf(chunks)];
    assert one[1..] == [] && one + [] == one;
    if GoesOn(w, round, messages) {
      hide LastRound;
      UsageIsFolded(w, round + 1, WithRound(w, round, messages, CallsOf(chunks)), text + TextOf(chunks),
        Accumulate(usage, UsageOf(chunks)));
      var rest := NextRounds(w, round, messages, text, usage);
      assert (one + rest.reported)[1..] == rest.reported;
    }
  }

  lemma {:induction false} FoldIsSum(acc: Option<Usage>, reported: seq<Option<Usage>>)
    ensures IsSum(FoldUsage(acc, reported), [acc] + reported)
    decreases |reported|
  {
    var all := [acc] + reported;
    assert all[1..] == reported;
    if reported == [] {
      assert all[0] == acc;
      OneSum(acc);
    } else {
      var next := Accumulate(acc, reported[0]);
      FoldIsSum(next, reported[1..]);
      var short := [next] + reported[1..];
      assert short[1..] == reported[1..];
      MergeSums(acc, reported, (u: Usage) => u.inputTokens);
      MergeSums(acc, reported, (u: Usage) => u.outputTokens);
      MergeSums(acc, reported, (u: Usage) => u.totalTokens);
      if exists i :: 0 <= i < |all| && all[i].Some? {
        var i :| 0 <= i < |all| && all[i].Some?;
        assert short[if i <= 1 then 0 else i - 1].Some?;
      }
      if exists i :: 0 <= i < |short| && short[i].Some? {
        var i :| 0 <= i < |short| && short[i].Some?;
        if i == 0 {
          assert all[0].Some? || all[1].Some?;
        } else {
          assert all[i + 1].Some?;
        }
      }
    }
  }

  lemma OneSum(acc: Option<Usage>)
    ensures IsSum(acc, [acc])
  {
    assert [acc][1..] == [];
    assert [acc][0] == acc;
  }

  lemma MergeSums(acc: Option<Usage>, reported: seq<Option<Usage>>, count: Usage -> nat)
    requires reported != []
    requires acc.Some? && reported[0].Some? ==>
      count(Accumulate(acc, reported[0]).value) == count(acc.value) + count(reported[0].value)
    ensures SumOf(count, [acc] + reported) == SumOf(count, [Accumulate(acc, reported[0])] + reported[1..])
  {
    assert ([acc] + reported)[1..] == reported;
    assert ([Accumulate(acc, reported[0])] + reported[1..])[1..] == reported[1..];
  }

  /** The usage handed on is the sum over the rounds that reported any, and absent when none did. */
  lemma UsageIsTheSum(w: World, messages: seq<Message>)
    ensures var t := RunFrom(w, 0, messages, "", None); IsSum(t.totalUsage, t.reported)
  {
    var t := RunFrom(w, 0, messages, "", None);
    UsageIsFolded(w, 0, messages, "", None);
    FoldIsSum(None, t.reported);
    NothingAddsNothing(t.totalUsage, t.reported);
  }

  lemma NothingAddsNothing(total: Option<Usage>, reported: seq<Option<Usage>>)
    requires IsSum(total, [None] + reported)
    ensures IsSum(total, reported)
  {
    var all := [None] + reported;
    assert all[1..] == reported;
    if exists i :: 0 <= i < |reported| && reported[i].Some? {
      var i :| 0 <= i < |reported| && reported[i].Some?;
      assert all[i + 1].Some?;
    }
    if exists i :: 0 <= i < |all| && all[i].Some? {
      var i :| 0 <= i < |all| && all[i].Some?;
      assert reported[i - 1].Some?;
    }
  }

  // ----- In place -----

  function CallIn(chunk: Chunk): seq<ToolCall> {
    if chunk.ToolUse? then [chunk.call] else []
  }

  function TextIn(chunk: Chunk): string {
    if chunk.Text? then chunk.text else ""
  }

  lemma OneMore(chunks: seq<Chunk>, k: nat)
    requires k < |chunks|
    ensures CallsOf(chunks[k..]) == CallIn(chunks[k]) + CallsOf(chunks[k + 1..])
    ensures TextOf(chunks[k..]) == TextIn(chunks[k]) + TextOf(chunks[k + 1..])
    ensures ReasonOf(chunks[..k + 1]) == if chunks[k].Stop? then chunks[k].reason else ReasonOf(chunks[..k])
    ensures UsageOf(chunks[..k + 1])
            == if chunks[k].Stop? && chunks[k].usage.Some? then chunks[k].usage else UsageOf(chunks[..k])
  {
    assert chunks[k..][1..] == chunks[k + 1..] && chunks[..k + 1][..k] == chunks[..k];
  }

  lemma NothingYet()
    ensures CallsOf([]) == [] && TextOf([]) == "" && ReasonOf([]) == "" && UsageOf([]) == None
  {
  }

  method StreamRound(round: Round)
      returns (pendingToolCalls: seq<ToolCall>, stopReason: string, text: string, usage: Option<Usage>)
    ensures pendingToolCalls == CallsOf(round.chunks) && stopReason == ReasonOf(round.chunks)
    ensures text == TextOf(round.chunks) && usage == UsageOf(round.chunks)
  {
    hide CallsOf, TextOf, ReasonOf, UsageOf;
    NothingYet();
    pendingToolCalls, stopReason, text, usage := [], "", "", None;
    var chunks := round.chunks;
    var k := 0;
    assert chunks[0..] == chunks && chunks[..0] == [];
    while k < |chunks|
      invariant k <= |chunks|
      invariant pendingToolCalls + CallsOf(chunks[k..]) == CallsOf(chunks)
        && text + TextOf(chunks[k..]) == TextOf(chunks)
      invariant stopReason == ReasonOf(chunks[..k]) && usage == UsageOf(chunks[..k])
    {
      var chunk := chunks[k];
      OneMore(chunks, k);
      Associative(pendingToolCalls, CallIn(chunk), CallsOf(chunks[k + 1..]));
      Associative(text, TextIn(chunk), TextOf(chunks[k + 1..]));
      if chunk.ToolUse? {
        pendingToolCalls := pendingToolCalls + [chunk.call];
      }
      if chunk.Stop? {
        stopReason := chunk.reason;
        if chunk.usage.Some? {
          usage := chunk.usage;
        }
      }
      if chunk.Text? {
        text := text + chunk.text;
      }
      k := k + 1;
    }
    assert chunks[..k] == chunks && chunks[k..] == [];
  }

  lemma Composed(done: seq<seq<Message>>, yielded: seq<Chunk>, executed: nat, reported: seq<Option<Usage>>,
                 requests: seq<seq<Message>>, more: seq<Chunk>, n: nat, next: seq<Option<Usage>>, rest: Trace)
    ensures After(done, yielded, executed, reported, After(requests, more, n, next, rest))
            == After(done + requests, yielded + more, executed + n, reported + next, rest)
  {
    Associative(done, requests, rest.requests);
    Associative(yielded, more, rest.yielded);
    Associative(reported, next, rest.reported);
  }

  // Each way a round can go, as one equation, so that the loop below never unfolds the run.

  lemma RoundEndsEarly(w: World, round: nat, messages: seq<Message>, text: string, usage: Option<Usage>)
    requires round <= w.maxToolRounds && (w.provider(round, messages).abandoned || w.provider(round, messages).fails)
    ensures var r := w.provider(round, messages);
            RunFrom(w, round, messages, text, usage)
            == Trace([messages], r.chunks, 0, [], if r.abandoned then Abandoned else Failed, text, usage, false)
  {
  }

  predicate Completes(w: World, round: nat, messages: seq<Message>) {
    !w.provider(round, messages).abandoned && !w.provider(round, messages).fails
  }

  lemma RoundAnswers(w: World, round: nat, messages: seq<Message>, text: string, usage: Option<Usage>)
    requires round <= w.maxToolRounds && Completes(w, round, messages)
      && !Continues(w, w.provider(round, messages).chunks)
    ensures var chunks := w.provider(round, messages).chunks;
            RunFrom(w, round, messages, text, usage)
            == Trace([messages], chunks, 0, [UsageOf(chunks)], Finished, text + TextOf(chunks),
                     Accumulate(usage, UsageOf(chunks)), false)
  {
    hide TextOf, UsageOf, Accumulate, Continues;
  }

  lemma RoundExhausts(w: World, messages: seq<Message>, text: string, usage: Option<Usage>)
    requires Completes(w, w.maxToolRounds, messages) && Continues(w, w.provider(w.maxToolRounds, messages).chunks)
    ensures var chunks := w.provider(w.maxToolRounds, messages).chunks;
            var sentence := w.closing(w.maxToolRounds, CallsOf(chunks));
            RunFrom(w, w.maxToolRounds, messages, text, usage)
            == Trace([messages], chunks + ClosingChunks(sentence), 0, [UsageOf(chunks)], Finished,
                     text + TextOf(chunks) + sentence, Accumulate(usage, UsageOf(chunks)), true)
  {
    hide TextOf, UsageOf, Accumulate, Continues, CallsOf, ClosingChunks;
  }

  lemma RoundIsDropped(w: World, round: nat, messages: seq<Message>, text: string, usage: Option<Usage>)
    requires round < w.maxToolRounds && Completes(w, round, messages)
      && Continues(w, w.provider(round, messages).chunks)
    requires w.abandonedInTools(round)
    ensures var chunks := w.provider(round, messages).chunks;
            RunFrom(w, round, messages, text, usage)
            == Trace([messages], chunks, 1, [UsageOf(chunks)], Abandoned, text + TextOf(chunks),
                     Accumulate(usage, UsageOf(chunks)), false)
  {
    hide TextOf, UsageOf, Accumulate, Continues;
  }

  lemma RoundGoesOn(w: World, round: nat, messages: seq<Message>, text: string, usage: Option<Usage>)
    requires round < w.maxToolRounds && Completes(w, round, messages)
      && Continues(w, w.provider(round, messages).chunks)
    requires !w.abandonedInTools(round)
    ensures var chunks := w.provider(round, messages).chunks; var calls := CallsOf(chunks);
            RunFrom(w, round, messages, text, usage)
            == After([messages], chunks + OwnChunks(ClientMessages(w, round, calls), Suppresses(w, round, calls)), 1,
                     [UsageOf(chunks)],
                     RunFrom(w, round + 1, WithRound(w, round, messages, calls), text + TextOf(chunks),
                             Accumulate(usage, UsageOf(chunks))))
  {
    hide TextOf, UsageOf, Accumulate, Continues, CallsOf, OwnChunks, WithRound, LastRound, After;
  }

  lemma NoToolYet(w: World, round: nat)
    ensures ResultsFor(w, round, []) == [] && ClientMessages(w, round, []) == 0 && !Suppresses(w, round, [])
  {
  }

  lemma OneMoreTool(w: World, round: nat, calls: seq<ToolCall>, k: nat)
    requires k < |calls|
    ensures var response := w.tool(round, calls[k]);
            && ResultsFor(w, round, calls[k..])
               == [ToolResult(calls[k].id, response.result, response.isError)] + ResultsFor(w, round, calls[k + 1..])
            && ClientMessages(w, round, calls[k..])
              == response.clientMessages + ClientMessages(w, round, calls[k + 1..])
            && Suppresses(w, round, calls[k..]) == (response.suppress || Suppresses(w, round, calls[k + 1..]))
  {
    assert calls[k..][1..] == calls[k + 1..];
  }

  method RunTools(w: World, round: nat, calls: seq<ToolCall>)
      returns (results: seq<ToolResult>, clientMessages: nat, suppress: bool)
    ensures results == ResultsFor(w, round, calls) && clientMessages == ClientMessages(w, round, calls)
    ensures suppress == Suppresses(w, round, calls)
  {
    hide ResultsFor, ClientMessages, Suppresses;
    NoToolYet(w, round);
    results, clientMessages, suppress := [], 0, false;
    var k := 0;
    assert calls[0..] == calls;
    while k < |calls|
      invariant k <= |calls|
      invariant results + ResultsFor(w, round, calls[k..]) == ResultsFor(w, round, calls)
      invariant clientMessages + ClientMessages(w, round, calls[k..]) == ClientMessages(w, round, calls)
      invariant (suppress || Suppresses(w, round, calls[k..])) == Suppresses(w, round, calls)
    {
      var response := w.tool(round, calls[k]);
      var result := ToolResult(calls[k].id, response.result, response.isError);
      OneMoreTool(w, round, calls, k);
      Associative(results, [result], ResultsFor(w, round, calls[k + 1..]));
      results := results + [result];
      clientMessages := clientMessages + response.clientMessages;
      suppress := suppress || response.suppress;
      k := k + 1;
    }
    assert calls[k..] == [];
  }

  /** The message list one turn grows and every provider call is handed. */
  class Conversation {
    var messages: seq<Message>

    constructor (history: seq<Message>)
      ensures messages == history
    {
      messages := history;
    }

    method ExecuteToolCalls(w: World, round: nat, calls: seq<ToolCall>) returns (clientMessages: nat, suppress: bool)
      modifies this
      ensures w.abandonedInTools(round) ==>
        messages == old(messages) + [Calls(calls)] && clientMessages == 0 && !suppress
      ensures !w.abandonedInTools(round) ==>
        && messages == WithRound(w, round, old(messages), calls)
        && clientMessages == ClientMessages(w, round, calls) && suppress == Suppresses(w, round, calls)
    {
      messages := messages + [Calls(calls)];
      var results, count, asked := RunTools(w, round, calls);
      if w.abandonedInTools(round) {
        return 0, false;
      }
      messages := messages + [Results(results)];
      return count, asked;
    }

    method ProcessMessageStream(w: World) returns (t: Trace)
      modifies this
      ensures t == RunFrom(w, 0, old(messages), "", None)
    {
      hide RunFrom, TextOf, CallsOf, ReasonOf, UsageOf, ClientMessages, Suppresses, OwnChunks, ClosingChunks,
        Accumulate, WithRound;
      ghost var whole := RunFrom(w, 0, messages, "", None);
      var round := 0;
      var requests, yielded, executed, reported := [], [], 0, [];
      var responseText, totalUsage: Option<Usage> := "", None;
      while true
        invariant round <= w.maxToolRounds
        invariant whole == After(requests, yielded, executed, reported,
          RunFrom(w, round, messages, responseText, totalUsage))
        decreases w.maxToolRounds - round
      {
        ghost var before, yieldedBefore, reportedBefore := messages, yielded, reported;
        ghost var requestsBefore, textBefore, usageBefore := requests, responseText, totalUsage;
        requests := requests + [messages];
        var r := w.provider(round, messages);
        yielded := yielded + r.chunks;
        if r.abandoned || r.fails {
          RoundEndsEarly(w, round, before, textBefore, usageBefore);
          assert reported + [] == reported;
          var ending := if r.abandoned then Abandoned else Failed;
          return Trace(requests, yielded, executed, reported, ending, responseText, totalUsage, false);
        }
        var pendingToolCalls, stopReason, text, usage := StreamRound(r);
        responseText := responseText + text;
        totalUsage := Accumulate(totalUsage, usage);
        reported := reported + [usage];
        if !(stopReason == "tool_use" && pendingToolCalls != [] && w.hasTools) {
          RoundAnswers(w, round, before, textBefore, usageBefore);
          return Trace(requests, yielded, executed, reported, Finished, responseText, totalUsage, false);
        }
        if round >= w.maxToolRounds {
          var sentence := w.closing(w.maxToolRounds, pendingToolCalls);
          RoundExhausts(w, before, textBefore, usageBefore);
          Associative(yieldedBefore, r.chunks, ClosingChunks(sentence));
          responseText := responseText + sentence;
          yielded := yielded + ClosingChunks(sentence);
          return Trace(requests, yielded, executed, reported, Finished, responseText, totalUsage, true);
        }
        var clientMessages, suppress := ExecuteToolCalls(w, round, pendingToolCalls);
        if w.abandonedInTools(round) {
          RoundIsDropped(w, round, before, textBefore, usageBefore);
          return Trace(requests, yielded, executed + 1, reported, Abandoned, responseText, totalUsage, false);
        }
        var own := OwnChunks(clientMessages, suppress);
        RoundGoesOn(w, round, before, textBefore, usageBefore);
        Associative(yieldedBefore, r.chunks, own);
        Composed(requestsBefore, yieldedBefore, executed, reportedBefore, [before], r.chunks + own, 1, [usage],
          RunFrom(w, round + 1, messages, responseText, totalUsage));
        executed := executed + 1;
        yielded := yielded + own;
        round := round + 1;
      }
    }
  }
}
