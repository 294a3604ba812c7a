/** The splitter of a model's streamed text into answer and thought.
  *
  * Text arrives in chunks cut anywhere, tags included, so the parser holds back a tail that
  * might still grow into a tag. `Scan` is the reference reading: one pass over the whole input,
  * the tag of the current mode dropped wherever it stands, every other character kept with its
  * mode. `ParserRefinements` proves that no chunking can be told from that one pass.
  */
module ThinkingTags {
  import opened Wrappers
  import opened Sequences

  datatype Kind = Answer | Thought

  datatype Segment = Segment(kind: Kind, content: string)

  const OPEN_TAG := "<thinking>"
  const CLOSE_TAG := "</thinking>"

  function TagFor(inside: bool): (tag: string)
    ensures |tag| >= 2
  {
    if inside then CLOSE_TAG else OPEN_TAG
  }

  /** A proper beginning of the tag, which is all a parser ever holds back. */
  predicate IsPart(part: string, tag: string) {
    |part| < |tag| && part == tag[..|part|]
  }

  function KindFor(inside: bool): Kind {
    if inside then Thought else Answer
  }

  // ----- The reference reading -----

  /** One character shown to a client, and whether it was answered or thought. */
  datatype Letter = Letter(kind: Kind, c: char)

  datatype Event = Shows(letter: Letter) | Tag(opening: bool)

  function Scan(input: string, inside: bool): seq<Event>
    decreases |input|
  {
    if input == "" then []
    else if Opens(TagFor(inside), input) then [Tag(!inside)] + Scan(input[|TagFor(inside)|..], !inside)
    else [Shows(Letter(KindFor(inside), input[0]))] + Scan(input[1..], inside)
  }

  /** What of a reading a client is shown: everything but the tags. */
  function Shown(events: seq<Event>): seq<Letter> {
    if events == [] then []
    else (if events[0].Shows? then [events[0].letter] else []) + Shown(events[1..])
  }

  function Read(input: string, inside: bool): seq<Letter> {
    Shown(Scan(input, inside))
  }

  /** The reading written back out, its tags put in again. */
  function Render(events: seq<Event>): string {
    if events == [] then ""
    else (match events[0]
          case Shows(letter) => [letter.c]
          case Tag(opening) => if opening then OPEN_TAG else CLOSE_TAG) + Render(events[1..])
  }

  /** Nothing but tags is ever dropped: putting them back gives the input. */
  lemma {:induction false} ScanIsLossless(input: string, inside: bool)
    ensures Render(Scan(input, inside)) == input
    decreases |input|
  {
    if input == "" {
    } else if Opens(TagFor(inside), input) {
      var tag := TagFor(inside);
      ScanIsLossless(input[|tag|..], !inside);
      assert input == tag + input[|tag|..];
      assert Scan(input, inside)[1..] == Scan(input[|tag|..], !inside);
    } else {
      ScanIsLossless(input[1..], inside);
      assert Scan(input, inside)[1..] == Scan(input[1..], inside);
    }
  }

  lemma ReadTag(input: string, inside: bool)
    requires Opens(TagFor(inside), input)
    ensures Read(input, inside) == Read(input[|TagFor(inside)|..], !inside)
  {
    assert Scan(input, inside)[1..] == Scan(input[|TagFor(inside)|..], !inside);
  }

  lemma ReadLetter(input: string, inside: bool)
    requires input != "" && !Opens(TagFor(inside), input)
    ensures Read(input, inside) == [Letter(KindFor(inside), input[0])] + Read(input[1..], inside)
  {
    assert Scan(input, inside)[1..] == Scan(input[1..], inside);
  }

  // ----- Segments, and what two segmentations have in common -----

  function Spelled(kind: Kind, content: string): seq<Letter> {
    if content == "" then [] else [Letter(kind, content[0])] + Spelled(kind, content[1..])
  }

  function Flatten(segments: seq<Segment>): seq<Letter> {
    if segments == [] then []
    else Spelled(segments[0].kind, segments[0].content) + Flatten(segments[1..])
  }

  ghost predicate NoneEmpty(segments: seq<Segment>) {
    forall s :: s in segments ==> s.content != ""
  }

  lemma NoneEmptyConcat(a: seq<Segment>, b: seq<Segment>)
    requires NoneEmpty(a) && NoneEmpty(b)
    ensures NoneEmpty(a + b)
  {
  }

  lemma {:induction false} FlattenConcat(a: seq<Segment>, b: seq<Segment>)
    ensures Flatten(a + b) == Flatten(a) + Flatten(b)
  {
    hide Spelled;
    if a == [] {
      assert a + b == b;
    } else {
      FlattenConcat(a[1..], b);
      assert (a + b)[1..] == a[1..] + b;
      Associative(Spelled(a[0].kind, a[0].content), Flatten(a[1..]), Flatten(b));
    }
  }

  function Prepend(segment: Segment, segments: seq<Segment>): seq<Segment> {
    if segments != [] && segments[0].kind == segment.kind
    then [Segment(segment.kind, segment.content + segments[0].content)] + segments[1..]
    else [segment] + segments
  }

  /** Neighbours of one kind joined, which is what makes two chunkings comparable. */
  function Joined(segments: seq<Segment>): seq<Segment> {
    if segments == [] then [] else Prepend(segments[0], Joined(segments[1..]))
  }

  /** The maximal runs of a reading. */
  function Runs(letters: seq<Letter>): seq<Segment>
  {
    if letters == [] then []
    else Prepend(Segment(letters[0].kind, [letters[0].c]), Runs(letters[1..]))
  }

  lemma PrependTwice(kind: Kind, c: char, content: string, segments: seq<Segment>)
    ensures Prepend(Segment(kind, [c]), Prepend(Segment(kind, content), segments))
         == Prepend(Segment(kind, [c] + content), segments)
  {
    if segments != [] && segments[0].kind == kind {
      Associative([c], content, segments[0].content);
    }
  }

  lemma {:induction false} RunsOfOneSegment(kind: Kind, content: string, rest: seq<Letter>)
    requires content != ""
    ensures Runs(Spelled(kind, content) + rest) == Prepend(Segment(kind, content), Runs(rest))
    decreases |content|
  {
    hide Prepend;
    var whole := Spelled(kind, content) + rest;
    assert whole[0] == Letter(kind, content[0]);
    assert whole[1..] == Spelled(kind, content[1..]) + rest;
    if |content| == 1 {
      assert content == [content[0]];
      assert whole[1..] == rest;
    } else {
      assert content == [content[0]] + content[1..];
      RunsOfOneSegment(kind, content[1..], rest);
      PrependTwice(kind, content[0], content[1..], Runs(rest));
    }
  }

  /** Joining is canonical: segmentations that spell the same letters join to the same segments. */
  lemma {:induction false} JoinedIsRuns(segments: seq<Segment>)
    requires NoneEmpty(segments)
    ensures Joined(segments) == Runs(Flatten(segments))
  {
    if segments != [] {
      JoinedIsRuns(segments[1..]);
      RunsOfOneSegment(segments[0].kind, segments[0].content, Flatten(segments[1..]));
    }
  }

  /** No two neighbours of one kind. */
  predicate Alternates(segments: seq<Segment>) {
    forall i :: 0 <= i < |segments| - 1 ==> segments[i].kind != segments[i + 1].kind
  }

  /** Runs are the reading itself, cut exactly where the kind changes. */
  lemma {:induction false} RunsAreTheReading(letters: seq<Letter>)
    ensures Flatten(Runs(letters)) == letters && NoneEmpty(Runs(letters)) && Alternates(Runs(letters))
    decreases |letters|
  {
    hide Prepend, Alternates;
    if letters == [] {
      NothingAlternates();
    } else {
      RunsAreTheReading(letters[1..]);
      PrependLetter(letters[0], Runs(letters[1..]));
      assert letters == [letters[0]] + letters[1..];
    }
  }

  lemma NothingAlternates()
    ensures Alternates([])
  {
  }

  lemma PrependLetter(letter: Letter, runs: seq<Segment>)
    requires NoneEmpty(runs) && Alternates(runs)
    ensures var next := Prepend(Segment(letter.kind, [letter.c]), runs);
            Flatten(next) == [letter] + Flatten(runs) && NoneEmpty(next) && Alternates(next)
  {
    var next := Prepend(Segment(letter.kind, [letter.c]), runs);
    var said: string := [letter.c];
    assert said[1..] == "" && Spelled(letter.kind, said) == [letter];
    if runs != [] && runs[0].kind == letter.kind {
      var content := said + runs[0].content;
      assert content[1..] == runs[0].content;
      assert Spelled(letter.kind, content) == [letter] + Spelled(letter.kind, runs[0].content);
      assert next[1..] == runs[1..];
      assert Flatten(runs) == Spelled(letter.kind, runs[0].content) + Flatten(runs[1..]);
      Associative([letter], Spelled(letter.kind, runs[0].content), Flatten(runs[1..]));
      assert forall i :: 0 < i < |next| ==> next[i] == runs[i];
    } else {
      assert next[1..] == runs;
      assert forall i :: 0 < i < |next| ==> next[i] == runs[i - 1];
    }
  }

  // ----- One drain of the buffer -----

  predicate StandsAt(tag: string, s: string, i: nat) {
    i + |tag| <= |s| && s[i..i + |tag|] == tag
  }

  function IndexFrom(s: string, tag: string, from: nat): (r: Option<nat>)
    requires from <= |s|
    ensures r.Some? ==> from <= r.value && StandsAt(tag, s, r.value) && forall i :: from <= i < r.value ==>
      !StandsAt(tag, s, i)
    ensures r.None? ==> forall i :: from <= i <= |s| ==> !StandsAt(tag, s, i)
    decreases |s| - from
  {
    if StandsAt(tag, s, from) then Some(from)
    else if from == |s| then None
    else IndexFrom(s, tag, from + 1)
  }

  predicate EndsWithPart(buffer: string, tag: string, len: nat) {
    len <= |buffer| && len <= |tag| && buffer[|buffer| - len..] == tag[..len]
  }

  /** The longest proper part of the tag that the buffer ends with, searched from `most` down. */
  function PartialMatchFrom(buffer: string, tag: string, most: nat): (len: nat)
    requires most <= |buffer| && most < |tag|
    ensures len <= most && EndsWithPart(buffer, tag, len)
    ensures forall longer :: len < longer <= most ==> !EndsWithPart(buffer, tag, longer)
  {
    if most == 0 then 0
    else if EndsWithPart(buffer, tag, most) then most
    else PartialMatchFrom(buffer, tag, most - 1)
  }

  function PartialMatch(buffer: string, tag: string): (len: nat)
    requires |tag| > 0
    ensures len < |tag| && EndsWithPart(buffer, tag, len)
    ensures forall longer :: len < longer < |tag| ==> !EndsWithPart(buffer, tag, longer)
  {
    PartialMatchFrom(buffer, tag, if |buffer| < |tag| - 1 then |buffer| else |tag| - 1)
  }

  function Emitted(kind: Kind, content: string): seq<Segment> {
    if content == "" then [] else [Segment(kind, content)]
  }

  datatype Drained = Drained(segments: seq<Segment>, buffer: string, inside: bool)

  /** Everything that can be emitted: no segment is empty, and what is kept is a proper beginning of the tag waited
    * for. */
  function Drain(buffer: string, inside: bool): (d: Drained)
    ensures IsPart(d.buffer, TagFor(d.inside))
    ensures NoneEmpty(d.segments)
    decreases |buffer|
  {
    var tag := TagFor(inside);
    if buffer == "" then Drained([], "", inside)
    else
      match IndexFrom(buffer, tag, 0)
      case Some(at) =>
        var rest := Drain(buffer[at + |tag|..], !inside);
        Prefixed(Emitted(KindFor(inside), buffer[..at]), rest)
      case None =>
        var held := |buffer| - PartialMatch(buffer, tag);
        Drained(Emitted(KindFor(inside), buffer[..held]), buffer[held..], inside)
  }

  function Prefixed(segments: seq<Segment>, d: Drained): Drained {
    d.(segments := segments + d.segments)
  }

  // ----- Whole runs -----

  function Feed(chunks: seq<string>, buffer: string, inside: bool): Drained {
    if chunks == [] then Drained([], buffer, inside)
    else
      var first := Drain(buffer + chunks[0], inside);
      var rest := Feed(chunks[1..], first.buffer, first.inside);
      Prefixed(first.segments, rest)
  }

  /** Every segment a parser gives for these chunks, its closing flush included. */
  function Parse(chunks: seq<string>): seq<Segment> {
    var fed := Feed(chunks, "", false);
    fed.segments + Emitted(KindFor(fed.inside), fed.buffer)
  }

  function Concat(chunks: seq<string>): string {
    if chunks == [] then "" else chunks[0] + Concat(chunks[1..])
  }

  // ----- The parser object -----

  class ThinkingTagParser {
    var buffer: string
    var insideThinking: bool

    constructor ()
      ensures buffer == "" && !insideThinking
    {
      buffer, insideThinking := "", false;
    }

    method Push(chunk: string) returns (segments: seq<Segment>)
      modifies this
      ensures Drained(segments, buffer, insideThinking) == Drain(old(buffer) + chunk, old(insideThinking))
    {
      buffer := buffer + chunk;
      segments := DrainBuffer();
    }

    method Flush() returns (segments: seq<Segment>)
      modifies this
      ensures segments == Emitted(KindFor(old(insideThinking)), old(buffer))
      ensures buffer == "" && insideThinking == old(insideThinking)
    {
      segments := [];
      if |buffer| > 0 {
        segments := segments + [Segment(KindFor(insideThinking), buffer)];
        buffer := "";
      }
    }

    method DrainBuffer() returns (segments: seq<Segment>)
      modifies this
      ensures Drained(segments, buffer, insideThinking) == Drain(old(buffer), old(insideThinking))
    {
      hide TagFor, KindFor, Emitted, PartialMatch, IndexFrom, IsPart, NoneEmpty, Flatten;
      segments := [];
      ghost var whole := Drain(buffer, insideThinking);
      while |buffer| > 0
        invariant whole == Prefixed(segments, Drain(buffer, insideThinking))
        decreases |buffer|
      {
        ghost var d := Drain(buffer, insideThinking);
        var tag, kind := TagFor(insideThinking), KindFor(insideThinking);
        var tagIdx := IndexFrom(buffer, tag, 0);
        if tagIdx.Some? {
          var before := Emitted(kind, buffer[..tagIdx.value]);
          buffer := buffer[tagIdx.value + |tag|..];
          insideThinking := !insideThinking;
          Associative(segments, before, Drain(buffer, insideThinking).segments);
          segments := segments + before;
          continue;
        }
        var partialLen := PartialMatchLength(buffer, tag);
        var held := |buffer| - partialLen;
        assert d == Drained(Emitted(kind, buffer[..held]), buffer[held..], insideThinking);
        if partialLen == 0 {
          assert buffer[..held] == buffer && buffer[held..] == "";
          segments := segments + Emitted(kind, buffer);
          buffer := "";
          continue;
        }
        segments := segments + Emitted(kind, buffer[..held]);
        buffer := buffer[held..];
        return;
      }
    }

    static method PartialMatchLength(buffer: string, tag: string) returns (len: nat)
      requires |tag| > 0
      ensures len == PartialMatch(buffer, tag)
    {
      var maxCheck := if |buffer| < |tag| - 1 then |buffer| else |tag| - 1;
      len := maxCheck;
      while len >= 1
        invariant len <= maxCheck
        invariant PartialMatchFrom(buffer, tag, len) == PartialMatch(buffer, tag)
      {
        if EndsWithPart(buffer, tag, len) {
          return;
        }
        len := len - 1;
      }
    }
  }
}
