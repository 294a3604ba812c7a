/** However a text is cut into chunks, the parser gives what one scan of the whole gives. */
module ParserRefinements {
  import opened Wrappers
  import opened Sequences
  import opened ThinkingTags

  /** Where no tag can start before `upTo`, whatever follows, the reading is those letters and then the rest. */
  lemma {:induction false} ReadPlain(s: string, inside: bool, upTo: nat)
    requires upTo <= |s|
    requires forall i :: 0 <= i < upTo ==> !Opens(TagFor(inside), s[i..])
    ensures Read(s, inside) == Spelled(KindFor(inside), s[..upTo]) + Read(s[upTo..], inside)
  {
    hide TagFor, KindFor, Opens, Read;
    assert s[0..] == s;
    if upTo > 0 {
      ReadLetter(s, inside);
      forall i | 0 <= i < upTo - 1
        ensures !Opens(TagFor(inside), s[1..][i..])
      {
        assert s[1..][i..] == s[i + 1..];
      }
      ReadPlain(s[1..], inside, upTo - 1);
      assert s[1..][..upTo - 1] == s[1..upTo];
      assert s[1..][upTo - 1..] == s[upTo..];
      assert Spelled(KindFor(inside), s[..upTo])
          == [Letter(KindFor(inside), s[0])] + Spelled(KindFor(inside), s[1..upTo]);
    }
  }

  lemma TagInsideBuffer(buffer: string, rest: string, tag: string, i: nat)
    requires i + |tag| <= |buffer|
    ensures Opens(tag, (buffer + rest)[i..]) <==> StandsAt(tag, buffer, i)
  {
    assert (buffer + rest)[i..][..|tag|] == buffer[i..i + |tag|];
  }

  /** A tag that starts in the buffer and ends beyond it starts in the held tail, so none starts earlier. */
  lemma NoTagBeforeHeld(buffer: string, rest: string, tag: string, i: nat)
    requires |tag| > 0
    requires IndexFrom(buffer, tag, 0).None?
    requires i < |buffer| - PartialMatch(buffer, tag)
    ensures !Opens(tag, (buffer + rest)[i..])
  {
    var s := (buffer + rest)[i..];
    if Opens(tag, s) {
      if i + |tag| <= |buffer| {
        TagInsideBuffer(buffer, rest, tag, i);
        assert false;
      } else {
        var len := |buffer| - i;
        assert s[..len] == buffer[i..];
        assert tag[..len] == s[..|tag|][..len] == s[..len];
        assert EndsWithPart(buffer, tag, len);
        assert false;
      }
    }
  }

  /** Up to the first whole tag, the reading is letters, whatever follows the buffer. */
  lemma ReadUpToTag(buffer: string, inside: bool, rest: string, at: nat)
    requires IndexFrom(buffer, TagFor(inside), 0) == Some(at)
    ensures Read(buffer + rest, inside)
         == Spelled(KindFor(inside), buffer[..at]) + Read(buffer[at + |TagFor(inside)|..] + rest, !inside)
  {
    hide TagFor, KindFor, Read, IndexFrom, Opens, Spelled;
    var tag, s := TagFor(inside), buffer + rest;
    forall i | 0 <= i < at
      ensures !Opens(tag, s[i..])
    {
      TagInsideBuffer(buffer, rest, tag, i);
    }
    ReadPlain(s, inside, at);
    SplitConcat(buffer, rest, at);
    TagInsideBuffer(buffer, rest, tag, at);
    ReadTag(s[at..], inside);
    SplitConcat(buffer, rest, at + |tag|);
    assert s[at..][|tag|..] == s[at + |tag|..];
  }

  /** With no whole tag, the reading is letters up to the tail that could still become one. */
  lemma ReadUpToHeld(buffer: string, inside: bool, rest: string, held: nat)
    requires IndexFrom(buffer, TagFor(inside), 0).None?
    requires held == |buffer| - PartialMatch(buffer, TagFor(inside))
    ensures Read(buffer + rest, inside)
      == Spelled(KindFor(inside), buffer[..held]) + Read(buffer[held..] + rest, inside)
  {
    hide TagFor, KindFor, Read, PartialMatch, IndexFrom, Opens, Spelled;
    var tag, s := TagFor(inside), buffer + rest;
    forall i | 0 <= i < held
      ensures !Opens(tag, s[i..])
    {
      NoTagBeforeHeld(buffer, rest, tag, i);
    }
    ReadPlain(s, inside, held);
    SplitConcat(buffer, rest, held);
  }

  lemma FlattenPrefixed(segments: seq<Segment>, d: Drained, rest: seq<Letter>)
    ensures Flatten(Prefixed(segments, d).segments) + rest == Flatten(segments) + (Flatten(d.segments) + rest)
  {
    hide Flatten;
    FlattenConcat(segments, d.segments);
    Associative(Flatten(segments), Flatten(d.segments), rest);
  }

  /** One drain is right whatever text follows it. */
  lemma {:induction false} DrainReads(buffer: string, inside: bool, rest: string)
    ensures var d := Drain(buffer, inside);
            Read(buffer + rest, inside) == Flatten(d.segments) + Read(d.buffer + rest, d.inside)
    decreases |buffer|
  {
    var tag, kind := TagFor(inside), KindFor(inside);
    if buffer == "" {
    } else {
      hide *;
      match IndexFrom(buffer, tag, 0)
      case Some(at) =>
        var next := Drain(buffer[at + |tag|..], !inside);
        DrainAtTag(buffer, inside, at);
        ReadUpToTag(buffer, inside, rest, at);
        FlattenEmitted(kind, buffer[..at]);
        DrainReads(buffer[at + |tag|..], !inside, rest);
        FlattenPrefixed(Emitted(kind, buffer[..at]), next, Read(next.buffer + rest, next.inside));
      case None =>
        var held := |buffer| - PartialMatch(buffer, tag);
        DrainAtHeld(buffer, inside, held);
        ReadUpToHeld(buffer, inside, rest, held);
        FlattenEmitted(kind, buffer[..held]);
    }
  }

  lemma DrainAtTag(buffer: string, inside: bool, at: nat)
    requires IndexFrom(buffer, TagFor(inside), 0) == Some(at)
    ensures var next := Drain(buffer[at + |TagFor(inside)|..], !inside); var d := Drain(buffer, inside);
            && d == Prefixed(Emitted(KindFor(inside), buffer[..at]), next)
            && d.buffer == next.buffer && d.inside == next.inside
  {
    hide TagFor, KindFor, Emitted, IsPart, NoneEmpty;
  }

  lemma DrainAtHeld(buffer: string, inside: bool, held: nat)
    requires buffer != "" && IndexFrom(buffer, TagFor(inside), 0).None?
    requires held == |buffer| - PartialMatch(buffer, TagFor(inside))
    ensures Drain(buffer, inside) == Drained(Emitted(KindFor(inside), buffer[..held]), buffer[held..], inside)
  {
    hide TagFor, KindFor, Emitted, IsPart, NoneEmpty;
  }

  lemma FlattenEmitted(kind: Kind, content: string)
    ensures Flatten(Emitted(kind, content)) == Spelled(kind, content)
  {
    if content != "" {
      assert Emitted(kind, content)[1..] == [];
    }
  }

  /** No parser could hold back less: each held tail, met with the rest of its tag, is shown as nothing at all. */
  lemma {:induction false} HoldingIsNecessary(buffer: string, inside: bool)
    ensures var d := Drain(buffer, inside);
            IsPart(d.buffer, TagFor(d.inside)) && Read(d.buffer + TagFor(d.inside)[|d.buffer|..], d.inside) == []
  {
    hide TagFor, KindFor, Drain;
    var d := Drain(buffer, inside);
    var tag := TagFor(d.inside);
    assert d.buffer + tag[|d.buffer|..] == tag;
    ReadTag(tag, d.inside);
  }

  lemma {:induction false} FeedReads(chunks: seq<string>, buffer: string, inside: bool)
    requires IsPart(buffer, TagFor(inside))
    ensures var fed := Feed(chunks, buffer, inside);
            && IsPart(fed.buffer, TagFor(fed.inside))
            && NoneEmpty(fed.segments)
            && Read(buffer + Concat(chunks), inside) == Flatten(fed.segments) + Read(fed.buffer, fed.inside)
  {
    if chunks == [] {
      assert buffer + "" == buffer;
    } else {
      hide TagFor, KindFor, Read, Drain, IsPart, Flatten;
      var first := Drain(buffer + chunks[0], inside);
      var rest := Feed(chunks[1..], first.buffer, first.inside);
      DrainReads(buffer + chunks[0], inside, Concat(chunks[1..]));
      Associative(buffer, chunks[0], Concat(chunks[1..]));
      FeedReads(chunks[1..], first.buffer, first.inside);
      FlattenPrefixed(first.segments, rest, Read(rest.buffer, rest.inside));
      NoneEmptyConcat(first.segments, rest.segments);
    }
  }

  /** A tail too short to be a tag is read letter by letter, which is what a flush does with it. */
  lemma ReadHeld(buffer: string, inside: bool)
    requires IsPart(buffer, TagFor(inside))
    ensures Read(buffer, inside) == Spelled(KindFor(inside), buffer)
  {
    ReadPlain(buffer, inside, |buffer|);
    assert buffer[|buffer|..] == "";
    assert buffer[..|buffer|] == buffer;
  }

  /** Every chunking spells exactly the reference reading of the whole, with no empty segment. */
  lemma ParseReads(chunks: seq<string>)
    ensures NoneEmpty(Parse(chunks))
    ensures Flatten(Parse(chunks)) == Read(Concat(chunks), false)
  {
    FeedReads(chunks, "", false);
    assert "" + Concat(chunks) == Concat(chunks);
    var fed := Feed(chunks, "", false);
    FlattenConcat(fed.segments, Emitted(KindFor(fed.inside), fed.buffer));
    FlattenEmitted(KindFor(fed.inside), fed.buffer);
    ReadHeld(fed.buffer, fed.inside);
  }

  /** Refinement: with same-kind neighbours joined, every chunking gives the runs of one scan of the whole. */
  lemma ParseRefinesScan(chunks: seq<string>)
    ensures Joined(Parse(chunks)) == Runs(Read(Concat(chunks), false))
  {
    ParseReads(chunks);
    JoinedIsRuns(Parse(chunks));
  }

  /** So two chunkings of one text cannot be told apart. */
  lemma ChunkingIsInvisible(some: seq<string>, other: seq<string>)
    requires Concat(some) == Concat(other)
    ensures Joined(Parse(some)) == Joined(Parse(other))
  {
    ParseRefinesScan(some);
    ParseRefinesScan(other);
  }
}
