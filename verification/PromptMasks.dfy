/** The prompt mask's way back: a stream of tokens restored to real values through a bounded hold-back.
  *
  * `Restore` reads a text once from the left, each token replaced by its real value. The
  * restorer sees the text in chunks cut anywhere, keeps the last `maxTokenLength - 1`
  * characters of what it has restored, and restores those again with the next chunk.
  */
module PromptMasks {
  import opened Wrappers
  import opened Sequences

  datatype Pair = Pair(token: string, value: string)

  type Binding = seq<Pair>

  predicate StandsAt(token: string, text: string, i: nat) {
    i <= |text| && Opens(token, text[i..])
  }

  /** Tokens a mask may emit: not empty, and within the length it announces. */
  predicate Fits(b: Binding, maxTokenLength: nat) {
    forall k :: 0 <= k < |b| ==> 0 < |b[k].token| <= maxTokenLength
  }

  function Keep(maxTokenLength: nat): nat {
    if maxTokenLength == 0 then 0 else maxTokenLength - 1
  }

  /** No token stands inside another. */
  ghost predicate Unnested(b: Binding) {
    forall j, k, i: nat :: 0 <= j < |b| && 0 <= k < |b| && StandsAt(b[j].token, b[k].token, i) ==>
      b[j].token == b[k].token
  }

  /** One of the two texts begins the other. */
  predicate Meets(a: string, b: string) {
    Opens(a, b) || Opens(b, a)
  }

  /** An end of a real value short enough to be held back neither holds a token nor begins one. */
  ghost predicate EndsClear(b: Binding, max: nat) {
    forall j, k, i: nat :: 0 <= j < |b| && 0 <= k < |b| && i < |b[k].value| && |b[k].value| - i <= Keep(max) ==>
      !Meets(b[j].token, b[k].value[i..])
  }

  /** No real value goes on from a beginning of a token as the token does, both of them held back. */
  ghost predicate FrontsClear(b: Binding, max: nat) {
    forall j, k, q: nat :: 0 <= j < |b| && 0 <= k < |b| && 0 < q < |b[j].token| && q + |b[k].value| <= Keep(max) ==>
      !Meets(b[k].value, b[j].token[q..])
  }

  /** Nothing a restorer with this bound ever holds back can be taken for a token, or a part of one, that was not
    * there. */
  ghost predicate ReadsOnce(b: Binding, max: nat) {
    EndsClear(b, max) && FrontsClear(b, max)
  }

  /** So however much is held back: no value meets a token, at either's end or inside. */
  ghost predicate Apart(b: Binding) {
    Unnested(b) && forall max: nat :: ReadsOnce(b, max)
  }

  function FirstOpening(b: Binding, text: string): (r: Option<nat>)
    ensures r.Some? ==> r.value < |b| && Opens(b[r.value].token, text) && forall j :: 0 <= j < r.value ==>
      !Opens(b[j].token, text)
    ensures r.None? ==> forall j :: 0 <= j < |b| ==> !Opens(b[j].token, text)
  {
    OpeningFrom(b, text, 0)
  }

  function OpeningFrom(b: Binding, text: string, from: nat): (r: Option<nat>)
    requires from <= |b|
    ensures r.Some? ==> from <= r.value < |b| && Opens(b[r.value].token, text)
                        && forall j :: from <= j < r.value ==> !Opens(b[j].token, text)
    ensures r.None? ==> forall j :: from <= j < |b| ==> !Opens(b[j].token, text)
    decreases |b| - from
  {
    if from == |b| then None
    else if Opens(b[from].token, text) then Some(from)
    else OpeningFrom(b, text, from + 1)
  }

  function Restore(b: Binding, text: string, max: nat): string
    requires Fits(b, max)
    decreases |text|
  {
    if text == "" then ""
    else
      match FirstOpening(b, text)
      case Some(k) => b[k].value + Restore(b, text[|b[k].token|..], max)
      case None => [text[0]] + Restore(b, text[1..], max)
  }

  // ----- The held-back restorer -----

  function Cut(restored: string, maxTokenLength: nat): (cut: nat)
    ensures cut <= |restored|
  {
    if |restored| < Keep(maxTokenLength) then 0 else |restored| - Keep(maxTokenLength)
  }

  /** What a push lets go, and what it holds back. */
  function Push(b: Binding, max: nat, held: string, text: string): (string, string)
    requires Fits(b, max)
  {
    var restored := Restore(b, held + text, max);
    (restored[..Cut(restored, max)], restored[Cut(restored, max)..])
  }

  // ----- The stream -----

  datatype Json =
    | JString(text: string)
    | JArray(items: seq<Json>)
    | JObject(fields: seq<(string, Json)>)
    | JOther(raw: string)

  /** Every string a tool's arguments hold, at any depth. */
  function RestoreStrings(b: Binding, max: nat, v: Json): Json
    requires Fits(b, max)
    decreases v
  {
    match v
    case JString(text) => JString(Restore(b, text, max))
    case JArray(items) => JArray(seq(|items|, i requires 0 <= i < |items| => RestoreStrings(b, max, items[i])))
    case JObject(fields) =>
      JObject(seq(|fields|, i requires 0 <= i < |fields| => (fields[i].0, RestoreStrings(b, max, fields[i].1))))
    case JOther(_) => v
  }

  datatype Chunk = Text(text: string) | ToolUse(input: Json) | OtherChunk(raw: string)

  function Passed(b: Binding, max: nat, chunk: Chunk): Chunk
    requires Fits(b, max)
  {
    if chunk.ToolUse? then ToolUse(RestoreStrings(b, max, chunk.input)) else chunk
  }

  /** Empty text is no chunk at all. */
  function Piece(text: string): seq<Chunk> {
    if text == "" then [] else [Text(text)]
  }

  /** The chunks handed on for these, and what is still held: a stream that throws here has handed on just these. */
  function HandOn(b: Binding, max: nat, held: string, chunks: seq<Chunk>): (seq<Chunk>, string)
    requires Fits(b, max)
    decreases |chunks|
  {
    if chunks == [] then ([], held)
    else if chunks[0].Text? then
      var (out, kept) := Push(b, max, held, chunks[0].text);
      var (rest, last) := HandOn(b, max, kept, chunks[1..]);
      (Piece(out) + rest, last)
    else
      var (rest, last) := HandOn(b, max, "", chunks[1..]);
      (Piece(Restore(b, held, max)) + [Passed(b, max, chunks[0])] + rest, last)
  }

  function SendMessage(b: Binding, max: nat, chunks: seq<Chunk>): seq<Chunk>
    requires Fits(b, max)
  {
    var (out, held) := HandOn(b, max, "", chunks);
    out + Piece(Restore(b, held, max))
  }

  /** A stream character by character, so that how its text is cut does not show. */
  datatype Mark = Letter(c: char) | Item(chunk: Chunk)

  function Letters(text: string): seq<Mark> {
    if text == "" then [] else [Letter(text[0])] + Letters(text[1..])
  }

  function Spell(chunks: seq<Chunk>): seq<Mark> {
    if chunks == [] then []
    else (if chunks[0].Text? then Letters(chunks[0].text) else [Item(chunks[0])]) + Spell(chunks[1..])
  }

  /** The reference: each unbroken run of text restored whole, each other chunk in its own place between the runs. */
  function RunByRun(b: Binding, max: nat, run: string, chunks: seq<Chunk>): seq<Mark>
    requires Fits(b, max)
    decreases |chunks|
  {
    if chunks == [] then Letters(Restore(b, run, max))
    else if chunks[0].Text? then RunByRun(b, max, run + chunks[0].text, chunks[1..])
    else Letters(Restore(b, run, max)) + [Item(Passed(b, max, chunks[0]))] + RunByRun(b, max, "", chunks[1..])
  }

  // ----- In place -----

  class HeldBackRestorer {
    const binding: Binding
    const maxTokenLength: nat
    var held: string

    constructor (binding: Binding, maxTokenLength: nat)
      ensures this.binding == binding && this.maxTokenLength == maxTokenLength && held == ""
    {
      this.binding, this.maxTokenLength, held := binding, maxTokenLength, "";
    }

    method PushText(text: string) returns (out: string)
      requires Fits(binding, maxTokenLength)
      modifies this
      ensures (out, held) == Push(binding, maxTokenLength, old(held), text)
    {
      var restored := Restore(binding, held + text, maxTokenLength);
      var cut := Cut(restored, maxTokenLength);
      held := restored[cut..];
      out := restored[..cut];
    }

    method Flush() returns (rest: string)
      requires Fits(binding, maxTokenLength)
      modifies this
      ensures rest == Restore(binding, old(held), maxTokenLength) && held == ""
    {
      rest := Restore(binding, held, maxTokenLength);
      held := "";
    }
  }

  /** The masked provider's loop over its vendor's chunks. */
  method SendMasked(binding: Binding, maxTokenLength: nat, chunks: seq<Chunk>) returns (sent: seq<Chunk>)
    requires Fits(binding, maxTokenLength)
    ensures sent == SendMessage(binding, maxTokenLength, chunks)
  {
    hide Restore, Push, Piece, Passed;
    sent := [];
    var restorer := new HeldBackRestorer(binding, maxTokenLength);
    var k := 0;
    ghost var whole := HandOn(binding, maxTokenLength, "", chunks);
    assert chunks[0..] == chunks && sent + whole.0 == whole.0;
    while k < |chunks|
      invariant k <= |chunks| && restorer.binding == binding && restorer.maxTokenLength == maxTokenLength
      invariant var (rest, last) := HandOn(binding, maxTokenLength, restorer.held, chunks[k..]);
                whole == (sent + rest, last)
    {
      var chunk := chunks[k];
      assert chunks[k..][1..] == chunks[k + 1..];
      if chunk.Text? {
        var out := restorer.PushText(chunk.text);
        Associative(sent, Piece(out), HandOn(binding, maxTokenLength, restorer.held, chunks[k + 1..]).0);
        sent := sent + Piece(out);
      } else {
        var rest := restorer.Flush();
        var more := Piece(rest) + [Passed(binding, maxTokenLength, chunk)];
        Associative(sent, more, HandOn(binding, maxTokenLength, restorer.held, chunks[k + 1..]).0);
        sent := sent + more;
      }
      k := k + 1;
    }
    assert sent + [] == sent;
    var rest := restorer.Flush();
    sent := sent + Piece(rest);
  }
}
