/** A session's entries as the messages a provider is sent, and the window that bounds them.
  *
  * `Paired` is what a provider demands: each tool call message directly followed by its results,
  * the same ids in the same order, and no result anywhere else.
  */
module ContextWindow {
  import opened Wrappers
  import opened Sequences
  import opened SessionEntries

  /** The id a stored tool call is given, counted, or the one its vendor gave it. */
  datatype ToolId = Hist(n: nat) | Given(id: string)

  datatype ToolCall = ToolCall(id: ToolId, name: string, input: map<string, string>)

  datatype ToolResult = ToolResult(id: ToolId, content: string, isError: bool)

  datatype Message =
    | Words(fromUser: bool, text: string)
    | Calls(calls: seq<ToolCall>)
    | Results(results: seq<ToolResult>)

  predicate Answers(calls: seq<ToolCall>, results: seq<ToolResult>) {
    |results| == |calls| && forall i :: 0 <= i < |calls| ==> results[i].id == calls[i].id
  }

  predicate Paired(messages: seq<Message>)
    decreases |messages|
  {
    messages == []
    || (messages[0].Words? && Paired(messages[1..]))
    || (messages[0].Calls? && |messages| > 1 && messages[1].Results?
        && Answers(messages[0].calls, messages[1].results) && Paired(messages[2..]))
  }

  // ----- Converting entries -----

  /** One entry's messages, with the next synthetic id. */
  function MessagesOf(entry: Entry, n: nat): seq<Message> {
    match entry
    case UserEntry(content, _, _) => [Words(true, content)]
    case ModelEntry(author, content, _, _, _, _, _, _) => if author.Assistant? then [Words(false, content)] else []
    case ToolEntry(name, input, _, _) =>
      [Calls([ToolCall(Hist(n), name, input)]), Results([ToolResult(Hist(n), "[result was returned to user]", false)])]
    case ForeignEntry(_, _, _, _, _) => []
  }

  function Convert(entries: seq<Entry>, n: nat): seq<Message>
    decreases |entries|
  {
    if entries == [] then []
    else if entries[0].cleared then Convert(entries[1..], n)
    else MessagesOf(entries[0], n) + Convert(entries[1..], if entries[0].ToolEntry? then n + 1 else n)
  }

  function Uncleared(entries: seq<Entry>): seq<Entry> {
    if entries == [] then []
    else (if entries[0].cleared then [] else [entries[0]]) + Uncleared(entries[1..])
  }

  /** A cleared entry is as good as absent: neither it nor a gap where it stood reaches the provider. */
  lemma {:induction false} ClearedLeaveNoTrace(entries: seq<Entry>, n: nat)
    ensures Convert(entries, n) == Convert(Uncleared(entries), n)
    decreases |entries|
  {
    if entries != [] {
      if entries[0].cleared {
        assert [] + Uncleared(entries[1..]) == Uncleared(entries[1..]);
        ClearedLeaveNoTrace(entries[1..], n);
      } else {
        ClearedLeaveNoTrace(entries[1..], if entries[0].ToolEntry? then n + 1 else n);
        assert Uncleared(entries)[1..] == Uncleared(entries[1..]);
      }
    }
  }

  lemma {:induction false} ConvertedIsPaired(entries: seq<Entry>, n: nat)
    ensures Paired(Convert(entries, n))
    decreases |entries|
  {
    if entries != [] {
      var rest := Convert(entries[1..], if entries[0].ToolEntry? && !entries[0].cleared then n + 1 else n);
      ConvertedIsPaired(entries[1..], if entries[0].ToolEntry? && !entries[0].cleared then n + 1 else n);
      if !entries[0].cleared {
        var head := MessagesOf(entries[0], n);
        if |head| == 1 {
          assert (head + rest)[1..] == rest;
        } else if |head| == 2 {
          assert (head + rest)[2..] == rest;
        } else {
          assert head + rest == rest;
        }
      }
    }
  }

  /** The next synthetic id after these entries. */
  function NextId(entries: seq<Entry>, n: nat): nat {
    n + ToolCount(entries)
  }

  lemma {:induction false} ConvertSplits(a: seq<Entry>, b: seq<Entry>, n: nat)
    ensures Convert(a + b, n) == Convert(a, n) + Convert(b, NextId(a, n))
    decreases |a|
  {
    hide MessagesOf;
    if a == [] {
      assert a + b == b;
    } else {
      assert (a + b)[1..] == a[1..] + b;
      var next := if a[0].ToolEntry? && !a[0].cleared then n + 1 else n;
      ConvertSplits(a[1..], b, next);
      if !a[0].cleared {
        Associative(MessagesOf(a[0], n), Convert(a[1..], next), Convert(b, NextId(a, n)));
      }
    }
  }

  /** What stands in the messages where an entry's turn comes: the user's and the assistant's own words, each as theirs,
    * and a tool's call with its arguments and the stand-in for its result; and nothing of any other entry. */
  lemma EntryIsSaid(entries: seq<Entry>, i: nat)
    requires i < |entries|
    ensures var e := entries[i]; var all := Convert(entries, 0);
            var from := |Convert(entries[..i], 0)|; var to := |Convert(entries[..i + 1], 0)|;
            && from <= to <= |all|
            && all[..from] == Convert(entries[..i], 0)
            && (if e.cleared then to == from
                else match e
                  case UserEntry(content, _, _) => all[from..to] == [Words(true, content)]
                  case ModelEntry(author, content, _, _, _, _, _, _) =>
                    if author == Assistant then all[from..to] == [Words(false, content)] else to == from
                  case ToolEntry(name, input, _, _) =>
                    var id := Hist(ToolCount(entries[..i]));
                    all[from..to] == [Calls([ToolCall(id, name, input)]),
                                      Results([ToolResult(id, "[result was returned to user]", false)])]
                  case ForeignEntry(_, _, _, _, _) => to == from)
  {
    hide Convert;
    var before, after := entries[..i], entries[i + 1..];
    assert entries == before + ([entries[i]] + after) && entries[..i + 1] == before + [entries[i]];
    ConvertSplits(before, [entries[i]] + after, 0);
    ConvertSplits(before, [entries[i]], 0);
    ConvertSplits([entries[i]], after, NextId(before, 0));
    var own := Convert([entries[i]], NextId(before, 0));
    ConvertOne(entries[i], NextId(before, 0));
    assert Convert(entries, 0) == Convert(before, 0) + own + Convert(after, NextId([entries[i]], NextId(before, 0)));
  }

  lemma ConvertOne(entry: Entry, n: nat)
    ensures Convert([entry], n) == if entry.cleared then [] else MessagesOf(entry, n)
  {
    assert [entry][1..] == [];
    assert Convert([], n) == [] && Convert([], n + 1) == [];
    assert MessagesOf(entry, n) + [] == MessagesOf(entry, n);
  }

  function IdIn(message: Message): seq<ToolId> {
    if message.Calls? && |message.calls| == 1 then [message.calls[0].id] else []
  }

  function IdsOf(messages: seq<Message>): seq<ToolId> {
    if messages == [] then [] else IdIn(messages[0]) + IdsOf(messages[1..])
  }

  function HistIds(n: nat, count: nat): seq<ToolId>
    decreases count
  {
    if count == 0 then [] else [Hist(n)] + HistIds(n + 1, count - 1)
  }

  function ToolCount(entries: seq<Entry>): nat {
    if entries == [] then 0
    else (if entries[0].ToolEntry? && !entries[0].cleared then 1 else 0) + ToolCount(entries[1..])
  }

  lemma {:induction false} IdsConcat(a: seq<Message>, b: seq<Message>)
    ensures IdsOf(a + b) == IdsOf(a) + IdsOf(b)
  {
    hide IdIn;
    if a == [] {
      assert a + b == b;
    } else {
      IdsConcat(a[1..], b);
      assert (a + b)[1..] == a[1..] + b;
      Associative(IdIn(a[0]), IdsOf(a[1..]), IdsOf(b));
    }
  }

  /** The synthetic ids count the tool entries up from n, so no two are the same. */
  lemma {:induction false} SyntheticIdsCountUp(entries: seq<Entry>, n: nat)
    ensures IdsOf(Convert(entries, n)) == HistIds(n, ToolCount(entries))
    decreases |entries|
  {
    if entries != [] {
      if entries[0].cleared {
        SyntheticIdsCountUp(entries[1..], n);
      } else {
        var head, next := MessagesOf(entries[0], n), if entries[0].ToolEntry? then n + 1 else n;
        SyntheticIdsCountUp(entries[1..], next);
        IdsConcat(head, Convert(entries[1..], next));
        if entries[0].ToolEntry? {
          assert head[1..][1..] == [];
          assert IdsOf(head[1..]) == [];
          assert IdsOf(head) == [Hist(n)];
        } else if |head| == 1 {
          assert head[1..] == [];
          assert IdsOf(head) == [];
        }
      }
    }
  }

  lemma {:induction false} HistIdsDiffer(n: nat, count: nat, i: nat, j: nat)
    requires i < j < count
    ensures |HistIds(n, count)| == count && HistIds(n, count)[i] != HistIds(n, count)[j]
    decreases count
  {
    HistIdAt(n, count, i);
    HistIdAt(n, count, j);
  }

  lemma {:induction false} HistIdAt(n: nat, count: nat, i: nat)
    requires i < count
    ensures |HistIds(n, count)| == count && HistIds(n, count)[i] == Hist(n + i)
    decreases count
  {
    if count > 1 {
      HistIdAt(n + 1, count - 1, if i == 0 then 0 else i - 1);
    }
  }

  // ----- The window -----

  /** Structured content is as long as its JSON, here any length. */
  datatype Config = Config(maxMessages: int, maxContentLength: int, jsonLength: Message -> nat)

  function ContentLength(config: Config, m: Message): nat {
    if m.Words? then |m.text| else config.jsonLength(m)
  }

  function Total(config: Config, messages: seq<Message>): nat {
    if messages == [] then 0 else ContentLength(config, messages[0]) + Total(config, messages[1..])
  }

  /** All that is said, one message after another. */
  function Transcript(messages: seq<Message>): string {
    if messages == [] then "" else (if messages[0].Words? then messages[0].text else "") + Transcript(messages[1..])
  }

  /** How long the structured messages are together. */
  function JsonTotal(config: Config, messages: seq<Message>): nat {
    if messages == [] then 0
    else JsonTotal(config, messages[..|messages| - 1])
         + var last := messages[|messages| - 1]; if last.Words? then 0 else config.jsonLength(last)
  }

  lemma {:induction false} JsonFromTheFront(config: Config, messages: seq<Message>)
    requires messages != []
    ensures JsonTotal(config, messages)
         == (if messages[0].Words? then 0 else config.jsonLength(messages[0])) + JsonTotal(config, messages[1..])
  {
    var n := |messages| - 1;
    if n > 0 {
      JsonFromTheFront(config, messages[..n]);
      assert messages[..n][1..] == messages[1..][..n - 1];
    }
  }

  /** The length that is bounded: every character said and every one of the structured content. */
  lemma {:induction false} TotalIsTheLength(config: Config, messages: seq<Message>)
    ensures Total(config, messages) == |Transcript(messages)| + JsonTotal(config, messages)
  {
    if messages != [] {
      TotalIsTheLength(config, messages[1..]);
      JsonFromTheFront(config, messages);
    }
  }

  predicate OpensWithUserText(m: Message) {
    m.Words? && m.fromUser
  }

  /** Where `slice(-max)` starts: a bound of 0 is no bound at all, and a negative one counts from the front. */
  function SliceStart(length: nat, max: int): (start: nat)
    ensures start <= length
  {
    if max > 0 then (if length <= max then 0 else length - max)
    else if -max <= length then -max else length
  }

  function Fitted(config: Config, messages: seq<Message>): seq<Message>
    decreases |messages|
  {
    if Total(config, messages) > config.maxContentLength && |messages| > 1 then Fitted(config, messages[1..])
    else messages
  }

  function FromUserText(messages: seq<Message>): seq<Message>
    decreases |messages|
  {
    if messages != [] && !OpensWithUserText(messages[0]) then FromUserText(messages[1..]) else messages
  }

  function Window(config: Config, messages: seq<Message>): seq<Message> {
    FromUserText(Fitted(config, messages[SliceStart(|messages|, config.maxMessages)..]))
  }

  /** A suffix the provider may be sent: few enough messages, short enough or a single one, and opened by the user's
    * words. */
  predicate Admissible(config: Config, suffix: seq<Message>) {
    && |suffix| <= config.maxMessages
    && (Total(config, suffix) <= config.maxContentLength || |suffix| <= 1)
    && (suffix == [] || (suffix[0].Words? && suffix[0].fromUser))
  }

  /** The least admissible cut from `from` on, where the empty suffix always is one. */
  predicate IsLongest(config: Config, messages: seq<Message>, from: nat, window: seq<Message>) {
    exists k: nat :: from <= k <= |messages| && window == messages[k..]
      && forall j :: from <= j < k ==> !Admissible(config, messages[j..])
  }

  lemma {:induction false} FromUserTextIsLongest(config: Config, messages: seq<Message>, from: nat)
    requires from <= |messages| && |messages| - from <= config.maxMessages
    requires Total(config, messages[from..]) <= config.maxContentLength || |messages| - from <= 1
    ensures var window := FromUserText(messages[from..]);
            Admissible(config, window) && IsLongest(config, messages, from, window)
    decreases |messages| - from
  {
    var suffix := messages[from..];
    if suffix != [] && !OpensWithUserText(suffix[0]) {
      assert suffix[1..] == messages[from + 1..];
      FromUserTextIsLongest(config, messages, from + 1);
      var k: nat :| from + 1 <= k <= |messages| && FromUserText(suffix[1..]) == messages[k..]
        && forall j :: from + 1 <= j < k ==> !Admissible(config, messages[j..]);
      assert forall j :: from <= j < k ==> !Admissible(config, messages[j..]);
    } else {
      assert IsLongest(config, messages, from, messages[from..]);
    }
  }

  lemma {:induction false} FittedIsLongest(config: Config, messages: seq<Message>, from: nat)
    requires from <= |messages| && |messages| - from <= config.maxMessages
    ensures var window := FromUserText(Fitted(config, messages[from..]));
            Admissible(config, window) && IsLongest(config, messages, from, window)
    decreases |messages| - from
  {
    var suffix := messages[from..];
    if Total(config, suffix) > config.maxContentLength && |suffix| > 1 {
      assert suffix[1..] == messages[from + 1..];
      FittedIsLongest(config, messages, from + 1);
      var window := FromUserText(Fitted(config, messages[from + 1..]));
      var k: nat :| from + 1 <= k <= |messages| && window == messages[k..]
        && forall j :: from + 1 <= j < k ==> !Admissible(config, messages[j..]);
      assert forall j :: from <= j < k ==> !Admissible(config, messages[j..]);
    } else {
      FromUserTextIsLongest(config, messages, from);
    }
  }

  /** For a bound of at least one message, the window is the longest suffix the provider may be sent. */
  lemma WindowIsLongest(config: Config, messages: seq<Message>)
    requires config.maxMessages >= 1
    ensures Admissible(config, Window(config, messages)) && IsLongest(config, messages, 0, Window(config, messages))
  {
    var start := SliceStart(|messages|, config.maxMessages);
    FittedIsLongest(config, messages, start);
    var window := Window(config, messages);
    var k: nat :| start <= k <= |messages| && window == messages[k..]
      && forall j :: start <= j < k ==> !Admissible(config, messages[j..]);
    forall j | 0 <= j < k
      ensures !Admissible(config, messages[j..])
    {
    }
  }

  /** The bound on messages is kept for every history exactly when it is at least 1: a smaller one is read as none, or
    * from the front. */
  lemma BoundHoldsFromOneUp(config: Config)
    ensures (forall messages: seq<Message> :: |Window(config, messages)| <= config.maxMessages)
      <==> config.maxMessages >= 1
  {
    if config.maxMessages >= 1 {
      forall messages: seq<Message>
        ensures |Window(config, messages)| <= config.maxMessages
      {
        WindowIsLongest(config, messages);
      }
    } else if config.maxMessages == 0 {
      var lone := [Words(true, "")];
      assert lone[0..] == lone;
      assert Window(config, lone) == lone;
    } else {
      assert |Window(config, [])| > config.maxMessages;
    }
  }

  /** A bound below one: -m messages at the front are left out, none for a bound of zero, and the window is the longest
    * suffix of the rest that is short enough and opened by the user's words. */
  lemma BelowOneIsFromTheFront(config: Config, messages: seq<Message>)
    requires config.maxMessages < 1
    ensures var from := if -config.maxMessages <= |messages| then -config.maxMessages else |messages|;
            var unbounded := config.(maxMessages := |messages|);
            && Admissible(unbounded, Window(config, messages))
            && IsLongest(unbounded, messages, from, Window(config, messages))
  {
    var unbounded := config.(maxMessages := |messages|);
    var from := SliceStart(|messages|, config.maxMessages);
    FittedAlike(config, unbounded, messages[from..]);
    FittedIsLongest(unbounded, messages, from);
  }

  lemma {:induction false} FittedAlike(a: Config, b: Config, messages: seq<Message>)
    requires a.maxContentLength == b.maxContentLength && a.jsonLength == b.jsonLength
    ensures Fitted(a, messages) == Fitted(b, messages)
    decreases |messages|
  {
    TotalAlike(a, b, messages);
    if |messages| > 1 {
      FittedAlike(a, b, messages[1..]);
    }
  }

  lemma {:induction false} TotalAlike(a: Config, b: Config, messages: seq<Message>)
    requires a.jsonLength == b.jsonLength
    ensures Total(a, messages) == Total(b, messages)
  {
    if messages != [] {
      TotalAlike(a, b, messages[1..]);
    }
  }

  // ----- What the window keeps -----

  lemma {:induction false} SuffixIsPaired(messages: seq<Message>, k: nat)
    requires Paired(messages) && k <= |messages| && (k < |messages| ==> messages[k].Words?)
    ensures Paired(messages[k..])
    decreases |messages|
  {
    if k == 0 {
      assert messages[0..] == messages;
    } else if messages[0].Words? {
      SuffixIsPaired(messages[1..], k - 1);
      assert messages[1..][k - 1..] == messages[k..];
    } else {
      assert k != 1;
      SuffixIsPaired(messages[2..], k - 2);
      assert messages[2..][k - 2..] == messages[k..];
    }
  }

  lemma {:induction false} FittedIsSuffix(config: Config, messages: seq<Message>) returns (k: nat)
    ensures k <= |messages| && Fitted(config, messages) == messages[k..]
    decreases |messages|
  {
    if Total(config, messages) > config.maxContentLength && |messages| > 1 {
      var j := FittedIsSuffix(config, messages[1..]);
      assert messages[1..][j..] == messages[j + 1..];
      k := j + 1;
    } else {
      assert messages[0..] == messages;
      k := 0;
    }
  }

  lemma {:induction false} FromUserTextIsSuffix(messages: seq<Message>) returns (k: nat)
    ensures k <= |messages| && FromUserText(messages) == messages[k..]
    ensures k < |messages| ==> OpensWithUserText(messages[k])
    decreases |messages|
  {
    if messages != [] && !OpensWithUserText(messages[0]) {
      var j := FromUserTextIsSuffix(messages[1..]);
      assert messages[1..][j..] == messages[j + 1..];
      k := j + 1;
    } else {
      assert messages[0..] == messages;
      k := 0;
    }
  }

  /** Whatever the bounds, the window never orphans a result or a call. */
  lemma WindowIsPaired(config: Config, messages: seq<Message>)
    requires Paired(messages)
    ensures Paired(Window(config, messages))
  {
    hide Paired, Fitted, FromUserText, SliceStart;
    var start := SliceStart(|messages|, config.maxMessages);
    var sliced := messages[start..];
    var k := FittedIsSuffix(config, sliced);
    var fitted := messages[start + k..];
    assert sliced[k..] == fitted;
    var j := FromUserTextIsSuffix(fitted);
    assert fitted[j..] == messages[start + k + j..];
    SuffixIsPaired(messages, start + k + j);
  }

  /** So every turn's first request is well formed. */
  lemma HistoryIsPaired(config: Config, entries: seq<Entry>)
    ensures Paired(Window(config, Convert(entries, 0)))
  {
    ConvertedIsPaired(entries, 0);
    WindowIsPaired(config, Convert(entries, 0));
  }

  // ----- In place -----

  method ToContentMessages(entries: seq<Entry>) returns (messages: seq<Message>)
    ensures messages == Convert(entries, 0)
  {
    messages := [];
    var toolCallCounter := 0;
    var k := 0;
    while k < |entries|
      invariant k <= |entries|
      invariant Convert(entries, 0) == messages + Convert(entries[k..], toolCallCounter)
    {
      var e := entries[k];
      assert entries[k..][1..] == entries[k + 1..];
      k := k + 1;
      if e.cleared {
        continue;
      }
      ghost var was, n := messages, toolCallCounter;
      if e.ToolEntry? {
        var syntheticId := Hist(toolCallCounter);
        toolCallCounter := toolCallCounter + 1;
        messages := messages + [Calls([ToolCall(syntheticId, e.toolName, e.toolInput)])];
        messages := messages + [Results([ToolResult(syntheticId, "[result was returned to user]", false)])];
      } else if e.UserEntry? {
        messages := messages + [Words(true, e.content)];
      } else if e.ModelEntry? && e.author.Assistant? {
        messages := messages + [Words(false, e.content)];
      }
      assert messages == was + MessagesOf(e, n);
      Associative(was, MessagesOf(e, n), Convert(entries[k..], toolCallCounter));
    }
  }

  method ApplyMessageWindow(messages: seq<Message>, config: Config) returns (result: seq<Message>)
    ensures result == Window(config, messages)
  {
    result := messages[SliceStart(|messages|, config.maxMessages)..];
    ghost var sliced := result;
    var totalLength := TotalLength(config, result);
    while totalLength > config.maxContentLength && |result| > 1
      invariant totalLength == Total(config, result)
      invariant Fitted(config, result) == Fitted(config, sliced)
      decreases |result|
    {
      var removed := result[0];
      result := result[1..];
      totalLength := totalLength - ContentLength(config, removed);
    }
    ghost var fitted := result;
    while |result| > 0 && !OpensWithUserText(result[0])
      invariant FromUserText(result) == FromUserText(fitted)
      decreases |result|
    {
      result := result[1..];
    }
  }

  method TotalLength(config: Config, messages: seq<Message>) returns (sum: nat)
    ensures sum == Total(config, messages)
  {
    sum := 0;
    var k := 0;
    while k < |messages|
      invariant k <= |messages|
      invariant sum + Total(config, messages[k..]) == Total(config, messages)
    {
      assert messages[k..][1..] == messages[k + 1..];
      sum := sum + ContentLength(config, messages[k]);
      k := k + 1;
    }
  }
}
