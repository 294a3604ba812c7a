/** When a mask's streams are all restored rightly: exactly when nothing held back can be read as a token a second time.
  *
  * The condition is about the binding alone, its tokens, its values and the bound it announces. It
  * is enough for any tokens that do not nest; that it is needed is shown for what a mask promises,
  * tokens that neither nest nor overlap and values that are not empty and not their own token.
  */
module MaskExactness {
  import opened Wrappers
  import opened Sequences
  import opened PromptMasks
  import opened MaskRestorations

  /** Every stream of these masks is restored as its runs of text are, whole. */
  ghost predicate RestoresEveryStream(b: Binding, max: nat)
    requires Fits(b, max)
  {
    forall chunks: seq<Chunk> :: Spell(SendMessage(b, max, chunks)) == RunByRun(b, max, "", chunks)
  }

  /** Tokens that differ, and of which none stands in another or begins where another ends. */
  ghost predicate Separate(b: Binding) {
    && Unnested(b)
    && (forall j, k :: 0 <= j < k < |b| ==> b[j].token != b[k].token)
    && (forall j, k, i: nat :: 0 <= j < |b| && 0 <= k < |b| && 0 < i < |b[j].token| ==>
      !Opens(b[j].token[i..], b[k].token))
  }

  /** Every value is there, and is something else than its token. */
  ghost predicate Hides(b: Binding) {
    forall k :: 0 <= k < |b| ==> b[k].value != "" && b[k].value != b[k].token
  }

  ghost predicate Promised(b: Binding, max: nat) {
    Fits(b, max) && Separate(b) && Hides(b)
  }

  // ----- A stream of two texts -----

  lemma {:induction false} LettersTell(a: string, b: string)
    requires Letters(a) == Letters(b)
    ensures a == b
  {
    if a != "" && b != "" {
      assert Letters(a)[0] == Letters(b)[0] && Letters(a)[1..] == Letters(b)[1..];
      LettersTell(a[1..], b[1..]);
      assert a == [a[0]] + a[1..] && b == [b[0]] + b[1..];
    }
  }

  lemma SpellOfText(b: Binding, max: nat, text: string)
    requires Fits(b, max)
    ensures var (out, kept) := Push(b, max, "", text);
            && Spell(SendMessage(b, max, [Text(text)])) == Letters(out + Restore(b, kept, max))
            && RunByRun(b, max, "", [Text(text)]) == Letters(Restore(b, text, max))
  {
    hide Restore, Letters, Push, Spell;
    var (out, kept) := Push(b, max, "", text);
    var chunks := [Text(text)];
    assert chunks[1..] == [] && "" + text == text && Piece(out) + [] == Piece(out);
    assert HandOn(b, max, kept, []) == ([], kept);
    assert SendMessage(b, max, chunks) == Piece(out) + Piece(Restore(b, kept, max));
    assert RunByRun(b, max, "", chunks) == RunByRun(b, max, text, []);
    SpellConcat(Piece(out), Piece(Restore(b, kept, max)));
    SpellPiece(out);
    SpellPiece(Restore(b, kept, max));
    LettersConcat(out, Restore(b, kept, max));
  }

  lemma SpellOfTwoTexts(b: Binding, max: nat, x: string, rest: string)
    requires Fits(b, max)
    ensures var (out, kept) := Push(b, max, "", x); var (out', kept') := Push(b, max, kept, rest);
            && Spell(SendMessage(b, max, [Text(x), Text(rest)])) == Letters(out + (out' + Restore(b, kept', max)))
            && RunByRun(b, max, "", [Text(x), Text(rest)]) == Letters(Restore(b, x + rest, max))
  {
    hide Restore, Letters, Push, Spell;
    var (out, kept) := Push(b, max, "", x);
    var (out', kept') := Push(b, max, kept, rest);
    var last := Restore(b, kept', max);
    var chunks := [Text(x), Text(rest)];
    assert chunks[1..] == [Text(rest)] && chunks[1..][1..] == [] && "" + x == x;
    assert HandOn(b, max, kept', []) == ([], kept');
    assert HandOn(b, max, kept, [Text(rest)]) == (Piece(out') + [], kept');
    assert Piece(out') + [] == Piece(out');
    assert SendMessage(b, max, chunks) == Piece(out) + Piece(out') + Piece(last);
    assert RunByRun(b, max, x, [Text(rest)]) == RunByRun(b, max, x + rest, []);
    SpellConcat(Piece(out) + Piece(out'), Piece(last));
    SpellConcat(Piece(out), Piece(out'));
    SpellPiece(out);
    SpellPiece(out');
    SpellPiece(last);
    LettersConcat(out, out' + last);
    LettersConcat(out', last);
    Associative(Letters(out), Letters(out'), Letters(last));
  }

  /** Where every stream is restored rightly, so is every text read in two parts. */
  lemma EveryStreamGoesOn(b: Binding, max: nat, x: string, rest: string)
    requires Fits(b, max) && RestoresEveryStream(b, max)
    ensures Restore(b, x + rest, max) == GoingOn(b, max, max, x, rest)
  {
    hide Restore, Letters, Spell, SendMessage, RunByRun;
    var (out, kept) := Push(b, max, "", x);
    var (out', kept') := Push(b, max, kept, rest);
    assert "" + x == x && "" + (kept + rest) == kept + rest;
    assert Push(b, max, "", kept + rest) == (out', kept');
    SpellOfTwoTexts(b, max, x, rest);
    SpellOfText(b, max, kept + rest);
    hide Push;
    assert Spell(SendMessage(b, max, [Text(x), Text(rest)])) == RunByRun(b, max, "", [Text(x), Text(rest)]);
    assert Spell(SendMessage(b, max, [Text(kept + rest)])) == RunByRun(b, max, "", [Text(kept + rest)]);
    LettersTell(out' + Restore(b, kept', max), Restore(b, kept + rest, max));
    LettersTell(out + (out' + Restore(b, kept', max)), Restore(b, x + rest, max));
  }

  // ----- Tokens alone, and after a beginning of another -----

  lemma TokenOpens(b: Binding, max: nat, k: nat, rest: string)
    requires Fits(b, max) && Separate(b) && k < |b|
    ensures FirstOpening(b, b[k].token + rest) == Some(k)
    ensures Restore(b, b[k].token + rest, max) == b[k].value + Restore(b, rest, max)
  {
    var token := b[k].token;
    var text := token + rest;
    ValueOpens(token, rest);
    forall j | 0 <= j < |b| && Opens(b[j].token, text)
      ensures j == k
    {
      OpenersMeet(b[j].token, token, text);
      assert token[0..] == token && b[j].token[0..] == b[j].token;
      assert StandsAt(b[j].token, token, 0) || StandsAt(token, b[j].token, 0);
    }
    RestoreToken(b, text, max, k);
    assert text[|token|..] == rest;
  }

  /** The end of a token, short of the whole, holds no token. */
  lemma EndIsPlain(b: Binding, max: nat, j: nat, q: nat)
    requires Fits(b, max) && Unnested(b) && j < |b| && 0 < q <= |b[j].token|
    ensures Restore(b, b[j].token[q..], max) == b[j].token[q..]
  {
    hide Restore;
    var token := b[j].token;
    var end := token[q..];
    forall i, k | 0 <= i < |end| && 0 <= k < |b|
      ensures !Opens(b[k].token, end[i..])
    {
      assert end[i..] == token[q + i..];
      assert StandsAt(b[k].token, token, q + i) == Opens(b[k].token, end[i..]);
    }
    RestorePlain(b, max, end, |end|);
    assert end[..|end|] == end && end[|end|..] == "";
    RestoreNothing(b, max);
    assert end + "" == end;
  }

  /** A beginning of a token, cut short, then another token: the beginning stays, the token is restored. */
  lemma BeginningThenToken(b: Binding, max: nat, j: nat, q: nat, k: nat, rest: string)
    requires Fits(b, max) && Separate(b) && j < |b| && k < |b| && q < |b[j].token|
    ensures Restore(b, b[j].token[..q] + (b[k].token + rest), max)
      == b[j].token[..q] + (b[k].value + Restore(b, rest, max))
  {
    hide Restore, Separate, Opens;
    var begin, text := b[j].token[..q], b[j].token[..q] + (b[k].token + rest);
    forall i, m | 0 <= i < q && 0 <= m < |b|
      ensures !Opens(b[m].token, text[i..])
    {
      assert text[i..] == b[j].token[i..q] + (b[k].token + rest);
      NoTokenAcross(b, max, j, i, q, k, m, rest);
    }
    RestorePlain(b, max, text, q);
    assert text[..q] == begin && text[q..] == b[k].token + rest;
    TokenOpens(b, max, k, rest);
  }

  lemma SliceOfSlice(text: string, i: nat, q: nat, n: nat)
    requires i + n <= q <= |text|
    ensures text[i..q][..n] == text[i..][..n]
  {
  }

  /** No token opens in a part of a token with another token behind it. */
  lemma NoTokenAcross(b: Binding, max: nat, j: nat, i: nat, q: nat, k: nat, m: nat, rest: string)
    requires Fits(b, max) && Separate(b) && j < |b| && k < |b| && m < |b| && i < q < |b[j].token|
    ensures !Opens(b[m].token, b[j].token[i..q] + (b[k].token + rest))
  {
    var part, token, text := b[j].token[i..q], b[m].token, b[j].token[i..q] + (b[k].token + rest);
    if |token| <= |part| {
      var n := |token|;
      SplitConcat(part, b[k].token + rest, n);
      SliceOfSlice(b[j].token, i, q, n);
      assert StandsAt(token, b[j].token, i) == Opens(token, text);
    } else {
      var end := token[q - i..];
      if Opens(token, text) {
        assert text[..|token|][q - i..] == (b[k].token + rest)[..|end|];
        if |end| <= |b[k].token| {
          assert Opens(end, b[k].token);
        } else {
          assert b[k].token == end[..|b[k].token|];
          assert StandsAt(b[k].token, token, q - i);
        }
      }
    }
  }

  // ----- What is held and read as a token goes wrong -----

  predicate GoesWrong(b: Binding, max: nat, x: string, rest: string)
    requires Fits(b, max)
  {
    Restore(b, x + rest, max) != GoingOn(b, max, max, x, rest)
  }

  lemma ShortIsHeld(b: Binding, max: nat, x: string, rest: string)
    requires Fits(b, max) && |Restore(b, x, max)| <= Keep(max)
    ensures GoingOn(b, max, max, x, rest) == Restore(b, Restore(b, x, max) + rest, max)
  {
    hide Restore;
    var r := Restore(b, x, max);
    assert r[..0] + Restore(b, r[0..] + rest, max) == Restore(b, r + rest, max);
  }

  lemma TokenRestores(b: Binding, max: nat, k: nat)
    requires Fits(b, max) && Separate(b) && k < |b|
    ensures Restore(b, b[k].token, max) == b[k].value
  {
    hide Restore, Separate;
    TokenOpens(b, max, k, "");
    RestoreNothing(b, max);
    assert b[k].token + "" == b[k].token && b[k].value + "" == b[k].value;
  }

  /** A text that restores to something restores to nothing shorter than a character. */
  lemma RestoredIsThere(b: Binding, max: nat, x: string)
    requires Fits(b, max) && Hides(b) && x != ""
    ensures Restore(b, x, max) != ""
  {
  }

  /** A token in the held text that reading again happens to leave alone: the token's own stream then goes wrong. */
  lemma OwnStreamGoesWrong(b: Binding, max: nat, j: nat, y: string) returns (x: string, rest: string)
    requires Promised(b, max) && j < |b| && |b[j].token| + |y| <= Keep(max)
    requires b[j].value + Restore(b, y, max) == b[j].token + y
    ensures GoesWrong(b, max, x, rest)
  {
    hide Restore, Separate;
    var token, value := b[j].token, b[j].value;
    var again := Restore(b, y, max);
    x := token;
    TokenRestores(b, max, j);
    if |value| < |token| {
      rest := token[|value|..];
      assert value == (value + again)[..|value|] == (token + y)[..|value|] == token[..|value|];
      assert value + rest == token;
      TokenOpens(b, max, j, rest);
      assert Unnested(b) by { SeparateIsUnnested(b); }
      EndIsPlain(b, max, j, |value|);
      ShortIsHeld(b, max, x, rest);
    } else {
      var z := value[|token|..];
      rest := "";
      assert token == (token + y)[..|token|] == (value + again)[..|token|] == value[..|token|];
      assert value == token + z && x + rest == x && value + rest == value;
      ShortIsHeld(b, max, x, rest);
      TokenOpens(b, max, j, z);
      RestoredIsThere(b, max, z);
    }
  }

  lemma SeparateIsUnnested(b: Binding)
    requires Separate(b)
    ensures Unnested(b)
  {
  }

  /** A value with a held end that meets a token: some stream of it goes wrong. */
  lemma {:induction false} EndGoesWrong(b: Binding, max: nat, k: nat, i: nat, j: nat) returns (x: string, rest: string)
    requires Promised(b, max) && j < |b| && k < |b|
    requires i < |b[k].value| && |b[k].value| - i <= Keep(max) && Meets(b[j].token, b[k].value[i..])
    ensures GoesWrong(b, max, x, rest)
    decreases i
  {
    hide Restore, Separate, Meets, Opens;
    var value := b[k].value;
    var cut := Cut(value, max);
    if i', j' :| cut <= i' < i && 0 <= j' < |b| && Meets(b[j'].token, value[i'..]) {
      x, rest := EndGoesWrong(b, max, k, i', j');
    } else {
      x, rest := FirstEndGoesWrong(b, max, k, i, j);
    }
  }

  lemma FirstEndGoesWrong(b: Binding, max: nat, k: nat, i: nat, j: nat) returns (x: string, rest: string)
    requires Promised(b, max) && j < |b| && k < |b|
    requires i < |b[k].value| && |b[k].value| - i <= Keep(max) && Meets(b[j].token, b[k].value[i..])
    requires forall i', j' :: Cut(b[k].value, max) <= i' < i && 0 <= j' < |b| ==> !Meets(b[j'].token, b[k].value[i'..])
    ensures GoesWrong(b, max, x, rest)
  {
    if |b[k].value| - i < |b[j].token| {
      x, rest := b[k].token, b[j].token[|b[k].value| - i..];
      CrossingEndGoesWrong(b, max, k, i, j);
    } else {
      x, rest := InnerEndGoesWrong(b, max, k, i, j);
    }
  }

  lemma CrossingEndGoesWrong(b: Binding, max: nat, k: nat, i: nat, j: nat)
    requires Promised(b, max) && j < |b| && k < |b|
    requires i < |b[k].value| && |b[k].value| - i <= Keep(max) && Meets(b[j].token, b[k].value[i..])
    requires forall i', j' :: Cut(b[k].value, max) <= i' < i && 0 <= j' < |b| ==> !Meets(b[j'].token, b[k].value[i'..])
    requires |b[k].value| - i < |b[j].token|
    ensures GoesWrong(b, max, b[k].token, b[j].token[|b[k].value| - i..])
  {
    hide Restore, Separate, Meets, Opens, Cut, Keep, GoingOn;
    var value, token := b[k].value, b[j].token;
    var cut, end := Cut(value, max), value[i..];
    var rest := token[|end|..];
    TokenRestores(b, max, k);
    SeparateIsUnnested(b);
    MeetsShorter(end, token);
    assert end + rest == token;
    TokenOpens(b, max, k, rest);
    EndIsPlain(b, max, j, |end|);
    HeldReads(b, max, k, i, j, rest);
    TokenRestores(b, max, j);
    var right, wrong := value[..i] + token, value[..i] + b[j].value;
    assert value[..cut] + (value[cut..i] + b[j].value) == wrong && value + rest == right;
    assert right[i..] == token && wrong[i..] == b[j].value;
  }

  lemma InnerEndGoesWrong(b: Binding, max: nat, k: nat, i: nat, j: nat) returns (x: string, rest: string)
    requires Promised(b, max) && j < |b| && k < |b|
    requires i < |b[k].value| && |b[k].value| - i <= Keep(max) && Meets(b[j].token, b[k].value[i..])
    requires forall i', j' :: Cut(b[k].value, max) <= i' < i && 0 <= j' < |b| ==> !Meets(b[j'].token, b[k].value[i'..])
    requires |b[k].value| - i >= |b[j].token|
    ensures GoesWrong(b, max, x, rest)
  {
    hide Restore, Separate, Meets, Opens, Cut, GoingOn;
    var value, token := b[k].value, b[j].token;
    var cut, end := Cut(value, max), value[i..];
    var y := end[|token|..];
    TokenRestores(b, max, k);
    MeetsShorter(token, end);
    assert end == token + y;
    TokenOpens(b, max, j, y);
    if Restore(b, end, max) == end {
      x, rest := OwnStreamGoesWrong(b, max, j, y);
    } else {
      x, rest := b[k].token, "";
      assert x + "" == x && end + "" == end;
      HeldReads(b, max, k, i, j, "");
      assert value[..cut] + (value[cut..i] + Restore(b, end, max)) == value[..i] + Restore(b, end, max);
      assert value == value[..i] + end;
    }
  }

  lemma MeetsShorter(a: string, b: string)
    requires (Meets(a, b) || Meets(b, a)) && |a| <= |b|
    ensures b == a + b[|a|..]
  {
  }

  /** The held end of a value, read again with what follows, up to the first place it meets a token. */
  lemma HeldReads(b: Binding, max: nat, k: nat, i: nat, j: nat, rest: string)
    requires Fits(b, max) && k < |b| && j < |b| && Restore(b, b[k].token, max) == b[k].value
    requires i < |b[k].value| && |b[k].value| - i <= Keep(max)
    requires forall i', j' :: Cut(b[k].value, max) <= i' < i && 0 <= j' < |b| ==> !Meets(b[j'].token, b[k].value[i'..])
    ensures var value := b[k].value; var cut := Cut(value, max);
            && cut <= i
            && GoingOn(b, max, max, b[k].token, rest)
               == value[..cut] + (value[cut..i] + Restore(b, value[i..] + rest, max))
  {
    hide Restore, Meets, Opens;
    var value := b[k].value;
    var cut := Cut(value, max);
    var text := value[cut..] + rest;
    forall p, m | 0 <= p < i - cut && 0 <= m < |b|
      ensures !Opens(b[m].token, text[p..])
    {
      var end := value[cut + p..];
      assert text[p..] == end + rest;
      assert !Meets(b[m].token, end);
      if Opens(b[m].token, end + rest) {
        ValueOpens(end, rest);
        OpenersMeet(b[m].token, end, end + rest);
        assert false;
      }
    }
    RestorePlain(b, max, text, i - cut);
    assert text[..i - cut] == value[cut..i] && text[i - cut..] == value[i..] + rest;
  }

  /** A value that goes on from a token's beginning as the token does: some stream of the two goes wrong. */
  lemma FrontGoesWrong(b: Binding, max: nat, k: nat, q: nat, j: nat) returns (x: string, rest: string)
    requires Promised(b, max) && j < |b| && k < |b|
    requires 0 < q < |b[j].token| && q + |b[k].value| <= Keep(max) && Meets(b[k].value, b[j].token[q..])
    ensures GoesWrong(b, max, x, rest)
  {
    hide Restore, Separate, Meets, Opens;
    var value, token := b[k].value, b[j].token;
    var begin, end := token[..q], token[q..];
    x := begin + b[k].token;
    SeparateIsUnnested(b);
    BeginningThenToken(b, max, j, q, k, "");
    RestoreNothing(b, max);
    assert b[k].token + "" == b[k].token && value + "" == value;
    if |value| < |end| {
      rest := end[|value|..];
      MeetsShorter(value, end);
      assert begin + value + rest == token && rest == token[q + |value|..];
      BeginningThenToken(b, max, j, q, k, rest);
      Associative(begin, b[k].token, rest);
      EndIsPlain(b, max, j, q + |value|);
      Associative(begin, value, rest);
      ShortIsHeld(b, max, x, rest);
      TokenRestores(b, max, j);
    } else {
      var y := value[|end|..];
      MeetsShorter(end, value);
      rest := "";
      assert begin + value == token + y && x + "" == x && (begin + value) + "" == begin + value;
      ShortIsHeld(b, max, x, rest);
      TokenOpens(b, max, j, y);
      if b[j].value + Restore(b, y, max) == token + y {
        x, rest := OwnStreamGoesWrong(b, max, j, y);
      }
    }
  }

  // ----- Exactly when -----

  /** Exactly when: a mask's streams are all restored as whole text is, if and only if nothing held can be read
    * again. */
  lemma RestoresExactlyWhenReadOnce(b: Binding, max: nat)
    requires Promised(b, max)
    ensures RestoresEveryStream(b, max) <==> ReadsOnce(b, max)
  {
    SeparateIsUnnested(b);
    if ReadsOnce(b, max) {
      forall chunks: seq<Chunk>
        ensures Spell(SendMessage(b, max, chunks)) == RunByRun(b, max, "", chunks)
      {
        StreamRestoresRunByRun(b, max, chunks);
      }
    } else {
      var x, rest := SomeTextGoesWrong(b, max);
      if RestoresEveryStream(b, max) {
        EveryStreamGoesOn(b, max, x, rest);
      }
    }
  }

  lemma SomeTextGoesWrong(b: Binding, max: nat) returns (x: string, rest: string)
    requires Promised(b, max) && !ReadsOnce(b, max)
    ensures GoesWrong(b, max, x, rest)
  {
    hide Separate, Meets;
    if !EndsClear(b, max) {
      var j, k, i: nat :| 0 <= j < |b| && 0 <= k < |b| && i < |b[k].value| && |b[k].value| - i <= Keep(max)
        && Meets(b[j].token, b[k].value[i..]);
      x, rest := EndGoesWrong(b, max, k, i, j);
    } else {
      var j, k, q: nat :| 0 <= j < |b| && 0 <= k < |b| && 0 < q < |b[j].token| && q + |b[k].value| <= Keep(max)
        && Meets(b[k].value, b[j].token[q..]);
      x, rest := FrontGoesWrong(b, max, k, q, j);
    }
  }

  // ----- One mask that is right, and one that is not -----

  /** A numbered token for a telephone number: they share a character, and no stream of it goes wrong. */
  lemma SharedCharacterIsHarmless(chunks: seq<Chunk>)
    ensures Fits(PHONE, 3) && Spell(SendMessage(PHONE, 3, chunks)) == RunByRun(PHONE, 3, "", chunks)
  {
    var token, value := PHONE[0].token, PHONE[0].value;
    assert Unnested(PHONE) by {
      assert forall i: nat :: 0 < i ==> !StandsAt(token, token, i);
    }
    forall i: nat | i < |value|
      ensures !Meets(token, value[i..])
    {
      assert value[i..][0] == value[i] != token[0];
    }
    forall q: nat | 0 < q < |token|
      ensures !Meets(value, token[q..])
    {
      assert token[q..][0] == token[q] != value[0];
    }
    StreamRestoresRunByRun(PHONE, 3, chunks);
  }

  const PHONE: Binding := [Pair("<1>", "+1 5")]

  /** A mask whose real value begins its own token. */
  const SHARED: Binding := [Pair("ab", "a")]

  lemma SharedRestores()
    ensures Fits(SHARED, 2) && Unnested(SHARED) && !ReadsOnce(SHARED, 2)
    ensures Restore(SHARED, "a", 2) == "a" && Restore(SHARED, "ab", 2) == "a" && Restore(SHARED, "abb", 2) == "ab"
  {
    var b := SHARED;
    assert b[0].value[0..] == "a" && Meets(b[0].token, b[0].value[0..]);
    assert FirstOpening(b, "ab") == Some(0) && FirstOpening(b, "abb") == Some(0);
    assert FirstOpening(b, "a").None? && FirstOpening(b, "b").None?;
    assert "ab"[2..] == "" && "a"[1..] == "" && "b"[1..] == "" && "abb"[2..] == "b";
    assert Restore(b, "", 2) == "";
    assert Restore(b, "b", 2) == "b";
    assert Restore(b, "abb", 2) == "a" + "b" == "ab";
  }

  /** One such stream: the value is taken for the beginning of a token on its second reading. */
  lemma SharedCharacterBreaksIt()
    ensures var chunks := [Text("ab"), Text("b")];
            && Fits(SHARED, 2) && Unnested(SHARED) && !ReadsOnce(SHARED, 2)
            && Spell(SendMessage(SHARED, 2, chunks)) == Letters("a") && RunByRun(SHARED, 2, "", chunks) == Letters("ab")
  {
    hide Restore, Letters, Spell, RunByRun, HandOn, Fits, ReadsOnce, Unnested, FirstOpening, Push, Opens;
    SharedRestores();
    SharedHandOn();
    SharedRun();
    SpellPiece("a");
    assert [] + Piece("a") == Piece("a");
  }

  lemma SharedRun()
    requires Fits(SHARED, 2) && Restore(SHARED, "abb", 2) == "ab"
    ensures RunByRun(SHARED, 2, "", [Text("ab"), Text("b")]) == Letters("ab")
  {
    hide Restore, Letters, Fits;
    assert [Text("ab"), Text("b")][1..] == [Text("b")] && [Text("b")][1..] == [];
    assert "" + "ab" == "ab" && "ab" + "b" == "abb";
    assert RunByRun(SHARED, 2, "ab", [Text("b")]) == RunByRun(SHARED, 2, "abb", []);
  }

  lemma SharedHandOn()
    requires Fits(SHARED, 2) && Restore(SHARED, "ab", 2) == "a"
    ensures HandOn(SHARED, 2, "", [Text("ab"), Text("b")]) == ([], "a")
  {
    hide Restore, Fits;
    var chunks := [Text("ab"), Text("b")];
    assert chunks[1..] == [Text("b")] && [Text("b")][1..] == [];
    assert "" + "ab" == "ab" && "a" + "b" == "ab" && "a"[..0] == "" && "a"[0..] == "a";
    assert Push(SHARED, 2, "", "ab") == ("", "a") && Push(SHARED, 2, "a", "b") == ("", "a");
    assert HandOn(SHARED, 2, "a", [Text("b")]).1 == "a";
    assert HandOn(SHARED, 2, "a", [Text("b")]).0 == [] + [];
    assert HandOn(SHARED, 2, "", chunks).0 == [] + HandOn(SHARED, 2, "a", [Text("b")]).0;
  }
}
