/** What a masked stream makes of everything but its text: a tool is called with real values, at any depth, and every
  * other chunk is passed as it came; and what restoring a text means, occurrence by occurrence.
  */
module MaskArguments {
  import opened Wrappers
  import opened Sequences
  import opened PromptMasks
  import opened MaskRestorations

  // ----- A text -----

  /** No token stands before this place. */
  predicate NoneBefore(b: Binding, text: string, upTo: nat) {
    forall h: nat, j :: h < upTo && 0 <= j < |b| ==> !StandsAt(b[j].token, text, h)
  }

  lemma PlainUpTo(b: Binding, max: nat, text: string, upTo: nat)
    requires Fits(b, max) && upTo <= |text| && NoneBefore(b, text, upTo)
    ensures Restore(b, text, max) == text[..upTo] + Restore(b, text[upTo..], max)
  {
    hide Opens, Restore, Fits;
    forall i, j | 0 <= i < upTo && 0 <= j < |b|
      ensures !Opens(b[j].token, text[i..])
    {
      assert !StandsAt(b[j].token, text, i);
    }
    RestorePlain(b, max, text, upTo);
  }

  lemma FirstToStand(b: Binding, text: string, i: nat, k: nat)
    requires k < |b| && StandsAt(b[k].token, text, i) && forall j :: 0 <= j < k ==> !StandsAt(b[j].token, text, i)
    ensures FirstOpening(b, text[i..]) == Some(k)
  {
    hide Opens;
    forall j | 0 <= j < k
      ensures !Opens(b[j].token, text[i..])
    {
      assert !StandsAt(b[j].token, text, i);
    }
  }

  /** The leftmost token is replaced by its own value, what is before it stays, and what is after it is read on. */
  lemma LeftmostIsReplaced(b: Binding, max: nat, text: string, i: nat, k: nat)
    requires Fits(b, max) && NoneBefore(b, text, i)
    requires k < |b| && StandsAt(b[k].token, text, i) && forall j :: 0 <= j < k ==> !StandsAt(b[j].token, text, i)
    ensures i + |b[k].token| <= |text|
    ensures Restore(b, text, max) == text[..i] + b[k].value + Restore(b, text[i + |b[k].token|..], max)
  {
    hide Restore, NoneBefore;
    var rest := text[i..];
    FirstToStand(b, text, i, k);
    PlainUpTo(b, max, text, i);
    RestoreToken(b, rest, max, k);
    assert rest[|b[k].token|..] == text[i + |b[k].token|..];
    Associative(text[..i], b[k].value, Restore(b, text[i + |b[k].token|..], max));
  }

  /** A text no token stands in is left as it is. */
  lemma PlainIsLeft(b: Binding, max: nat, text: string)
    requires Fits(b, max) && NoneBefore(b, text, |text|)
    ensures Restore(b, text, max) == text
  {
    hide NoneBefore;
    PlainUpTo(b, max, text, |text|);
    assert text[|text|..] == "" && text[..|text|] == text;
  }

  // ----- A tool's arguments -----

  /** What a value holds at the end of a path of positions into it, if the path leads anywhere. */
  function NodeAt(v: Json, path: seq<nat>): Option<Json>
    decreases |path|
  {
    if path == [] then Some(v)
    else
      match v
      case JArray(items) => if path[0] < |items| then NodeAt(items[path[0]], path[1..]) else None
      case JObject(fields) => if path[0] < |fields| then NodeAt(fields[path[0]].1, path[1..]) else None
      case _ => None
  }

  /** What a restored value holds where the original held this. */
  predicate NodeRestored(b: Binding, max: nat, was: Option<Json>, now: Option<Json>)
    requires Fits(b, max)
  {
    match was
    case None => now.None?
    case Some(JString(text)) => now == Some(JString(Restore(b, text, max)))
    case Some(JArray(items)) => now.Some? && now.value.JArray? && |now.value.items| == |items|
    case Some(JObject(fields)) =>
      && now.Some? && now.value.JObject? && |now.value.fields| == |fields|
      && forall i :: 0 <= i < |fields| ==> now.value.fields[i].0 == fields[i].0
    case Some(JOther(raw)) => now == Some(JOther(raw))
  }

  /** The same shape and keys, every string restored, and everything else as it was: along every path. */
  ghost predicate ValueRestored(b: Binding, max: nat, was: Json, now: Json)
    requires Fits(b, max)
  {
    forall path: seq<nat> :: NodeRestored(b, max, NodeAt(was, path), NodeAt(now, path))
  }

  lemma {:induction false} StringsAreRestored(b: Binding, max: nat, v: Json, path: seq<nat>)
    requires Fits(b, max)
    ensures NodeRestored(b, max, NodeAt(v, path), NodeAt(RestoreStrings(b, max, v), path))
    decreases |path|
  {
    hide Restore;
    if path != [] {
      match v
      case JArray(items) =>
        if path[0] < |items| {
          StringsAreRestored(b, max, items[path[0]], path[1..]);
        }
      case JObject(fields) =>
        if path[0] < |fields| {
          StringsAreRestored(b, max, fields[path[0]].1, path[1..]);
        }
      case _ =>
    }
  }

  // ----- The stream -----

  /** The chunks that are not text, in order. */
  function Others(chunks: seq<Chunk>): seq<Chunk> {
    if chunks == [] then [] else (if chunks[0].Text? then [] else [chunks[0]]) + Others(chunks[1..])
  }

  /** How a chunk that is not text reaches the caller. */
  ghost predicate Delivered(b: Binding, max: nat, came: Chunk, sent: Chunk)
    requires Fits(b, max)
  {
    if came.ToolUse? then sent.ToolUse? && ValueRestored(b, max, came.input, sent.input) else sent == came
  }

  ghost predicate AllDelivered(b: Binding, max: nat, came: seq<Chunk>, sent: seq<Chunk>)
    requires Fits(b, max)
  {
    |sent| == |came| && forall i :: 0 <= i < |came| ==> Delivered(b, max, came[i], sent[i])
  }

  lemma {:induction false} OthersConcat(a: seq<Chunk>, b: seq<Chunk>)
    ensures Others(a + b) == Others(a) + Others(b)
  {
    if a == [] {
      assert a + b == b;
    } else {
      OthersConcat(a[1..], b);
      assert (a + b)[1..] == a[1..] + b;
      Associative(if a[0].Text? then [] else [a[0]], Others(a[1..]), Others(b));
    }
  }

  lemma OthersOfPiece(text: string)
    ensures Others(Piece(text)) == []
  {
    if text != "" {
      assert Piece(text)[1..] == [];
    }
  }

  lemma PassedIsDelivered(b: Binding, max: nat, chunk: Chunk)
    requires Fits(b, max) && !chunk.Text?
    ensures Delivered(b, max, chunk, Passed(b, max, chunk))
      && Others([Passed(b, max, chunk)]) == [Passed(b, max, chunk)]
  {
    hide NodeRestored, NodeAt, RestoreStrings;
    assert [Passed(b, max, chunk)][1..] == [];
    if chunk.ToolUse? {
      forall path: seq<nat>
        ensures NodeRestored(b, max, NodeAt(chunk.input, path), NodeAt(Passed(b, max, chunk).input, path))
      {
        StringsAreRestored(b, max, chunk.input, path);
      }
    }
  }

  lemma {:induction false} HandedOnAreDelivered(b: Binding, max: nat, held: string, chunks: seq<Chunk>)
    requires Fits(b, max)
    ensures AllDelivered(b, max, Others(chunks), Others(HandOn(b, max, held, chunks).0))
    decreases |chunks|
  {
    hide Delivered, Passed, Restore, Push, Piece;
    if chunks != [] {
      if chunks[0].Text? {
        var (out, kept) := Push(b, max, held, chunks[0].text);
        HandedOnAreDelivered(b, max, kept, chunks[1..]);
        var rest := HandOn(b, max, kept, chunks[1..]).0;
        OthersConcat(Piece(out), rest);
        OthersOfPiece(out);
        assert [] + Others(rest) == Others(rest) && [] + Others(chunks[1..]) == Others(chunks[1..]);
      } else {
        HandedOnAreDelivered(b, max, "", chunks[1..]);
        var rest := HandOn(b, max, "", chunks[1..]).0;
        var before, passed := Restore(b, held, max), Passed(b, max, chunks[0]);
        OthersConcat(Piece(before) + [passed], rest);
        OthersConcat(Piece(before), [passed]);
        OthersOfPiece(before);
        PassedIsDelivered(b, max, chunks[0]);
        assert Others(Piece(before) + [passed] + rest) == [passed] + Others(rest);
      }
    }
  }

  /** Every chunk that is not text is handed on, once and in order: a tool use with its arguments restored along every
    * path into them, and any other as it came. */
  lemma OthersAreDelivered(b: Binding, max: nat, chunks: seq<Chunk>)
    requires Fits(b, max)
    ensures AllDelivered(b, max, Others(chunks), Others(SendMessage(b, max, chunks)))
  {
    hide HandOn, AllDelivered, Restore, Piece;
    var (out, held) := HandOn(b, max, "", chunks);
    HandedOnAreDelivered(b, max, "", chunks);
    OthersConcat(out, Piece(Restore(b, held, max)));
    OthersOfPiece(Restore(b, held, max));
    assert Others(out) + [] == Others(out);
  }
}
