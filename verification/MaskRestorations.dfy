/** Restoring a stream piece by piece, its tail held back and restored again, is restoring each run of text whole. */
module MaskRestorations {
  import opened Wrappers
  import opened Sequences
  import opened PromptMasks

  // ----- Restoring -----

  lemma Head(token: string, text: string)
    requires Opens(token, text) && token != ""
    ensures text != "" && text[0] == token[0] && Opens(token[1..], text[1..])
  {
    assert text[..|token|][0] == token[0];
    assert text[1..][..|token| - 1] == text[..|token|][1..];
  }

  lemma Behead(token: string, text: string)
    requires token != "" && text != "" && text[0] == token[0] && Opens(token[1..], text[1..])
    ensures Opens(token, text)
  {
    assert text[..|token|] == [text[0]] + text[1..][..|token| - 1];
    assert token == [token[0]] + token[1..];
  }

  lemma RestoreToken(b: Binding, text: string, max: nat, k: nat)
    requires Fits(b, max) && FirstOpening(b, text) == Some(k)
    ensures text != "" && Restore(b, text, max) == b[k].value + Restore(b, text[|b[k].token|..], max)
  {
    Head(b[k].token, text);
  }

  lemma RestoreLetter(b: Binding, text: string, max: nat)
    requires Fits(b, max) && text != "" && FirstOpening(b, text).None?
    ensures Restore(b, text, max) == [text[0]] + Restore(b, text[1..], max)
  {
  }

  lemma OpenersMeet(a: string, b: string, text: string)
    requires Opens(a, text) && Opens(b, text)
    ensures Meets(a, b)
  {
    if |a| <= |b| {
      assert b[..|a|] == text[..|b|][..|a|] == a;
    } else {
      assert a[..|b|] == text[..|a|][..|b|] == b;
    }
  }

  lemma ValueOpens(value: string, rest: string)
    ensures Opens(value, value + rest)
  {
  }

  /** What goes on from a token's beginning in a restored text short enough to be held went on from it before it was
    * restored. */
  lemma {:induction false} OpenedBefore(b: Binding, max: nat, window: nat, j: nat, q: nat, x: string, rest: string)
    requires Fits(b, max) && FrontsClear(b, window) && j < |b| && 1 <= q <= |b[j].token|
    requires q + |Restore(b, x, max)| <= Keep(window)
    requires Opens(b[j].token[q..], Restore(b, x, max) + rest)
    ensures Opens(b[j].token[q..], x + rest)
    decreases |x|
  {
    hide FirstOpening, Opens, Restore, Meets, Keep;
    var token := b[j].token;
    if q == |token| {
      assert token[q..] == "";
      EmptyOpens(x + rest);
    } else if x == "" {
      RestoreNothing(b, max);
      assert "" + rest == rest;
    } else {
      match FirstOpening(b, x)
      case Some(k) =>
        OpensFits(b[k].token, x);
        RestoreToken(b, x, max, k);
        var r := Restore(b, x[|b[k].token|..], max);
        Associative(b[k].value, r, rest);
        ValueOpens(b[k].value, r + rest);
        assert !Meets(b[k].value, token[q..]);
        OpenersMeet(b[k].value, token[q..], b[k].value + (r + rest));
        assert false;
      case None =>
        RestoreLetter(b, x, max);
        var text := Restore(b, x, max) + rest;
        Head(token[q..], text);
        assert text[1..] == Restore(b, x[1..], max) + rest && token[q..][1..] == token[q + 1..];
        OpenedBefore(b, max, window, j, q + 1, x[1..], rest);
        assert (x + rest)[1..] == x[1..] + rest;
        Behead(token[q..], x + rest);
    }
  }

  lemma EmptyOpens(text: string)
    ensures Opens("", text)
  {
  }

  // ----- Restored text holds no whole token, and restoring it early changes nothing -----

  lemma ShiftStands(token: string, a: string, s: string, i: nat)
    requires |a| <= i
    ensures StandsAt(token, a + s, i) <==> StandsAt(token, s, i - |a|)
  {
    if i <= |a| + |s| {
      assert (a + s)[i..] == s[i - |a|..];
    }
  }

  lemma NoTokenInValue(b: Binding, max: nat, window: nat, j: nat, k: nat, s: string, i: nat)
    requires Fits(b, max) && EndsClear(b, window) && j < |b| && k < |b|
    requires i < |b[k].value| && |b[k].value| - i <= Keep(window)
    ensures !Opens(b[j].token, b[k].value[i..] + s)
  {
    hide Opens, Meets;
    var end := b[k].value[i..];
    if Opens(b[j].token, end + s) {
      ValueOpens(end, s);
      OpenersMeet(b[j].token, end, end + s);
    }
  }

  lemma {:induction false} RestoredHoldsNoToken(b: Binding, max: nat, x: string, j: nat, i: nat)
    requires Fits(b, max) && Apart(b) && j < |b|
    ensures !StandsAt(b[j].token, Restore(b, x, max), i)
    decreases |x|
  {
    hide Opens, FirstOpening, StandsAt, Restore, Apart;
    if x == "" {
      RestoreNothing(b, max);
      NothingStandsInNothing(b[j].token, i);
    } else {
      match FirstOpening(b, x)
      case Some(k) =>
        OpensFits(b[k].token, x);
        var y := x[|b[k].token|..];
        RestoreToken(b, x, max, k);
        if i < |b[k].value| {
          ApartReadsOnce(b, |b[k].value| + 1);
          NoTokenInValue(b, max, |b[k].value| + 1, j, k, Restore(b, y, max), i);
          assert (b[k].value + Restore(b, y, max))[i..] == b[k].value[i..] + Restore(b, y, max);
          StandsIsOpens(b[j].token, b[k].value + Restore(b, y, max), i);
        } else {
          RestoredHoldsNoToken(b, max, y, j, i - |b[k].value|);
          ShiftStands(b[j].token, b[k].value, Restore(b, y, max), i);
        }
      case None =>
        RestoreLetter(b, x, max);
        if i == 0 {
          NoTokenAtStart(b, max, x, j);
        } else {
          RestoredHoldsNoToken(b, max, x[1..], j, i - 1);
          ShiftStands(b[j].token, [x[0]], Restore(b, x[1..], max), i);
        }
    }
  }

  lemma StandsIsOpens(token: string, text: string, i: nat)
    requires i <= |text|
    ensures StandsAt(token, text, i) == Opens(token, text[i..])
  {
  }

  lemma NothingStandsInNothing(token: string, i: nat)
    requires token != ""
    ensures !StandsAt(token, "", i)
  {
  }

  lemma ApartReadsOnce(b: Binding, max: nat)
    requires Apart(b)
    ensures EndsClear(b, max) && FrontsClear(b, max)
  {
    assert ReadsOnce(b, max);
  }

  /** A letter no token opens at is still opened by none once the rest is restored, if that is short enough to be
    * held. */
  lemma NoTokenAtLetter(b: Binding, max: nat, window: nat, x: string, rest: string, j: nat)
    requires Fits(b, max) && FrontsClear(b, window) && j < |b| && x != ""
    requires FirstOpening(b, x).None? && FirstOpening(b, x + rest).None?
    requires |Restore(b, x, max)| <= Keep(window)
    ensures !Opens(b[j].token, Restore(b, x, max) + rest)
  {
    hide Opens, Restore, FrontsClear, Keep;
    var r, token := Restore(b, x, max), b[j].token;
    RestoreLetter(b, x, max);
    if Opens(token, r + rest) {
      Head(token, r + rest);
      assert (r + rest)[1..] == Restore(b, x[1..], max) + rest;
      OpenedBefore(b, max, window, j, 1, x[1..], rest);
      assert (x + rest)[1..] == x[1..] + rest;
      Behead(token, x + rest);
    }
  }

  lemma NoTokenAtStart(b: Binding, max: nat, x: string, j: nat)
    requires Fits(b, max) && Apart(b) && j < |b| && x != "" && FirstOpening(b, x).None?
    ensures !StandsAt(b[j].token, Restore(b, x, max), 0)
  {
    hide Opens, FirstOpening, Restore, Apart;
    var r := Restore(b, x, max);
    assert r[0..] == r && r + "" == r && x + "" == x;
    ApartReadsOnce(b, |r| + 1);
    NoTokenAtLetter(b, max, |r| + 1, x, "", j);
  }

  /** Where no token opens before `upTo`, restoring leaves those characters and goes on from there. */
  lemma {:induction false} RestorePlain(b: Binding, max: nat, s: string, upTo: nat)
    requires Fits(b, max) && upTo <= |s|
    requires forall i, j :: 0 <= i < upTo && 0 <= j < |b| ==> !Opens(b[j].token, s[i..])
    ensures Restore(b, s, max) == s[..upTo] + Restore(b, s[upTo..], max)
  {
    hide Opens;
    assert s[0..] == s;
    if upTo > 0 {
      assert FirstOpening(b, s[0..]).None?;
      RestoreLetter(b, s, max);
      forall i, j | 0 <= i < upTo - 1 && 0 <= j < |b|
        ensures !Opens(b[j].token, s[1..][i..])
      {
        assert s[1..][i..] == s[i + 1..];
      }
      RestorePlain(b, max, s[1..], upTo - 1);
      assert s[1..][upTo - 1..] == s[upTo..];
      assert s[..upTo] == [s[0]] + s[1..][..upTo - 1];
    }
  }

  lemma ValuePasses(b: Binding, max: nat, window: nat, k: nat, from: nat, s: string)
    requires Fits(b, max) && EndsClear(b, window) && k < |b|
    requires from <= |b[k].value| && |b[k].value| - from <= Keep(window)
    ensures Restore(b, b[k].value[from..] + s, max) == b[k].value[from..] + Restore(b, s, max)
  {
    hide Opens, Restore, EndsClear;
    var end := b[k].value[from..];
    var text := end + s;
    forall i, j | 0 <= i < |end| && 0 <= j < |b|
      ensures !Opens(b[j].token, text[i..])
    {
      NoTokenInValue(b, max, window, j, k, s, from + i);
      assert text[i..] == b[k].value[from + i..] + s;
    }
    RestorePlain(b, max, text, |end|);
    assert text[..|end|] == end && text[|end|..] == s;
  }

  lemma ExtendOpening(b: Binding, max: nat, x: string, rest: string, k: nat)
    requires Fits(b, max) && Unnested(b) && FirstOpening(b, x) == Some(k)
    ensures FirstOpening(b, x + rest) == Some(k)
  {
    forall j | 0 <= j < |b|
      ensures Opens(b[j].token, x + rest) == Opens(b[j].token, x) || |b[j].token| > |x|
    {
      if |b[j].token| <= |x| {
        assert (x + rest)[..|b[j].token|] == x[..|b[j].token|];
      }
    }
    forall j | 0 <= j < k && |b[j].token| > |x|
      ensures !Opens(b[j].token, x + rest)
    {
      if Opens(b[j].token, x + rest) {
        Nested(b[k].token, b[j].token, x, rest);
        assert false;
      }
    }
  }

  lemma Nested(inner: string, outer: string, x: string, rest: string)
    requires Opens(inner, x) && |outer| > |x| && Opens(outer, x + rest)
    ensures StandsAt(inner, outer, 0) && inner != outer
  {
    assert outer[0..][..|inner|] == (x + rest)[..|outer|][..|inner|] == x[..|inner|];
  }

  lemma PartStands(x: string, token: string, inner: string, i: nat)
    requires |x| <= |token| && x == token[..|x|] && i <= |x| && Opens(inner, x[i..])
    ensures StandsAt(inner, token, i) && |inner| <= |x|
  {
    assert token[i..][..|inner|] == x[i..][..|inner|];
  }

  /** A text that is the beginning of one token holds no other, so restoring it leaves it as it is. */
  lemma PartIsPlain(b: Binding, max: nat, k: nat, x: string)
    requires Fits(b, max) && Unnested(b) && k < |b| && |x| < |b[k].token| && x == b[k].token[..|x|]
    ensures Restore(b, x, max) == x
  {
    forall i, j | 0 <= i < |x| && 0 <= j < |b|
      ensures !Opens(b[j].token, x[i..])
    {
      if Opens(b[j].token, x[i..]) {
        PartStands(x, b[k].token, b[j].token, i);
        assert false;
      }
    }
    RestorePlain(b, max, x, |x|);
    assert x[..|x|] == x && x[|x|..] == "";
  }

  /** What restoring x and going on with the part of it that is held gives, whatever follows. */
  function GoingOn(b: Binding, max: nat, window: nat, x: string, rest: string): string
    requires Fits(b, max)
  {
    var r := Restore(b, x, max);
    r[..Cut(r, window)] + Restore(b, r[Cut(r, window)..] + rest, max)
  }

  /** Restoring a text and reading its held end again, with whatever follows, is restoring the whole. */
  lemma {:induction false} RestoreHeld(b: Binding, max: nat, window: nat, x: string, rest: string)
    requires Fits(b, max) && Unnested(b) && ReadsOnce(b, window) && max <= window
    ensures Restore(b, x + rest, max) == GoingOn(b, max, window, x, rest)
    decreases |x|
  {
    hide Opens, StandsAt, Restore, EndsClear, FrontsClear, Unnested;
    if x == "" {
      RestoreNothing(b, max);
      assert "" + rest == rest && "" + Restore(b, rest, max) == Restore(b, rest, max);
    } else {
      match FirstOpening(b, x)
      case Some(k) => RestoreHeldToken(b, max, window, x, rest, k);
      case None =>
        match FirstOpening(b, x + rest)
        case Some(k) =>
          CrossingPart(b, x, rest, k);
          PartIsPlain(b, max, k, x);
          assert |x| < window && x[..0] + Restore(b, x[0..] + rest, max) == Restore(b, x + rest, max);
        case None => RestoreHeldLetter(b, max, window, x, rest);
    }
  }

  lemma RestoreHeldToken(b: Binding, max: nat, window: nat, x: string, rest: string, k: nat)
    requires Fits(b, max) && Unnested(b) && ReadsOnce(b, window) && max <= window
    requires FirstOpening(b, x) == Some(k)
    ensures Restore(b, x + rest, max) == GoingOn(b, max, window, x, rest)
    decreases |x|, 0
  {
    hide Opens, StandsAt, Restore, EndsClear, FrontsClear, Unnested, FirstOpening;
    var value := b[k].value;
    OpensFits(b[k].token, x);
    var y := x[|b[k].token|..];
    RestoreToken(b, x, max, k);
    ExtendOpening(b, max, x, rest, k);
    RestoreToken(b, x + rest, max, k);
    assert (x + rest)[|b[k].token|..] == y + rest;
    RestoreHeld(b, max, window, y, rest);
    var r, r' := Restore(b, x, max), Restore(b, y, max);
    var cut := Cut(r, window);
    CutOfConcat(value, r', window);
    hide Cut, Keep;
    if cut >= |value| {
      Associative(value, r'[..cut - |value|], Restore(b, r'[cut - |value|..] + rest, max));
    } else {
      assert r'[..0] + Restore(b, r'[0..] + rest, max) == Restore(b, r' + rest, max);
      ValuePasses(b, max, window, k, cut, r' + rest);
      Associative(value[cut..], r', rest);
      Associative(value[..cut], value[cut..], Restore(b, r' + rest, max));
    }
  }

  /** Where a cut falls in a value and what follows it. */
  lemma CutOfConcat(value: string, rest: string, window: nat)
    ensures var r := value + rest; var cut := Cut(r, window);
            if cut >= |value| then
              Cut(rest, window) == cut - |value| && r[..cut] == value + rest[..cut - |value|]
                && r[cut..] == rest[cut - |value|..]
            else
              && Cut(rest, window) == 0 && r[..cut] == value[..cut] && r[cut..] == value[cut..] + rest
              && |value| - cut <= Keep(window) && value[..cut] + value[cut..] == value
  {
  }

  lemma RestoreHeldLetter(b: Binding, max: nat, window: nat, x: string, rest: string)
    requires Fits(b, max) && Unnested(b) && ReadsOnce(b, window) && max <= window && x != ""
    requires FirstOpening(b, x).None? && FirstOpening(b, x + rest).None?
    ensures Restore(b, x + rest, max) == GoingOn(b, max, window, x, rest)
    decreases |x|, 0
  {
    hide Opens, StandsAt, Restore, EndsClear, FrontsClear, Unnested;
    RestoreLetter(b, x, max);
    RestoreLetter(b, x + rest, max);
    assert (x + rest)[1..] == x[1..] + rest;
    RestoreHeld(b, max, window, x[1..], rest);
    var r, r' := Restore(b, x, max), Restore(b, x[1..], max);
    var cut := Cut(r, window);
    if cut > 0 {
      assert Cut(r', window) == cut - 1;
      assert r[..cut] == [x[0]] + r'[..cut - 1] && r[cut..] == r'[cut - 1..];
    } else {
      assert r'[..0] + Restore(b, r'[0..] + rest, max) == Restore(b, r' + rest, max);
      forall j | 0 <= j < |b|
        ensures !Opens(b[j].token, r + rest)
      {
        NoTokenAtLetter(b, max, window, x, rest, j);
      }
      RestoreLetter(b, r + rest, max);
      assert (r + rest)[1..] == r' + rest && r[..0] + Restore(b, r[0..] + rest, max) == Restore(b, r + rest, max);
    }
  }

  /** Restoring a beginning first, and then the whole, is restoring the whole. */
  lemma RestoreEarly(b: Binding, max: nat, x: string, rest: string)
    requires Fits(b, max) && Apart(b)
    ensures Restore(b, x + rest, max) == Restore(b, Restore(b, x, max) + rest, max)
  {
    hide Restore, ReadsOnce;
    var r := Restore(b, x, max);
    var window := |r| + 1 + max;
    RestoreHeld(b, max, window, x, rest);
    assert Cut(r, window) == 0 && r[..0] + Restore(b, r[0..] + rest, max) == Restore(b, r + rest, max);
  }

  lemma RestoreNothing(b: Binding, max: nat)
    requires Fits(b, max)
    ensures Restore(b, "", max) == ""
  {
  }

  lemma OpensFits(token: string, text: string)
    requires Opens(token, text)
    ensures |token| <= |text|
  {
  }

  lemma CrossingPart(b: Binding, x: string, rest: string, k: nat)
    requires k < |b| && !Opens(b[k].token, x) && Opens(b[k].token, x + rest)
    ensures |x| < |b[k].token| && x == b[k].token[..|x|]
  {
    hide Opens;
    var token := b[k].token;
    var len := if |token| <= |x| then |token| else |x|;
    assert (x + rest)[..len] == x[..len];
    BeginningOpens(token, x, rest, len);
  }

  lemma BeginningOpens(token: string, x: string, rest: string, len: nat)
    requires Opens(token, x + rest) && len <= |x| && len <= |token| && (x + rest)[..len] == x[..len]
    ensures token[..len] == x[..len] && (len == |token| ==> Opens(token, x))
  {
    assert token[..len] == (x + rest)[..|token|][..len] == (x + rest)[..len];
  }

  /** Restoring twice is restoring once. */
  lemma RestoreIsIdempotent(b: Binding, max: nat, x: string)
    requires Fits(b, max) && Apart(b)
    ensures Restore(b, Restore(b, x, max), max) == Restore(b, x, max)
  {
    RestoreEarly(b, max, x, "");
    assert x + "" == x && Restore(b, x, max) + "" == Restore(b, x, max);
  }

  /** One push is right whatever text follows: what it lets go and what it holds restore to what its input does. */
  lemma PushRestores(b: Binding, max: nat, held: string, text: string, rest: string)
    requires Fits(b, max) && Unnested(b) && ReadsOnce(b, max)
    ensures var (out, kept) := Push(b, max, held, text);
            Restore(b, held + text + rest, max) == out + Restore(b, kept + rest, max)
  {
    hide Restore, Cut, Unnested, ReadsOnce;
    RestoreHeld(b, max, max, held + text, rest);
  }

  lemma {:induction false} LettersConcat(a: string, b: string)
    ensures Letters(a + b) == Letters(a) + Letters(b)
  {
    if a == "" {
      assert a + b == b;
    } else {
      LettersConcat(a[1..], b);
      assert (a + b)[0] == a[0] && (a + b)[1..] == a[1..] + b;
      Associative([Letter(a[0])], Letters(a[1..]), Letters(b));
    }
  }

  lemma {:induction false} SpellConcat(a: seq<Chunk>, b: seq<Chunk>)
    ensures Spell(a + b) == Spell(a) + Spell(b)
  {
    hide Letters;
    if a == [] {
      assert a + b == b;
    } else {
      SpellConcat(a[1..], b);
      assert (a + b)[1..] == a[1..] + b;
      Associative(if a[0].Text? then Letters(a[0].text) else [Item(a[0])], Spell(a[1..]), Spell(b));
    }
  }

  lemma SpellPiece(text: string)
    ensures Spell(Piece(text)) == Letters(text)
  {
    if text != "" {
      assert Piece(text)[1..] == [];
    }
  }

  /** What has been let go of the current run, `done`, and what is held stand for the run, whatever follows it. */
  ghost predicate StandsFor(b: Binding, max: nat, run: string, done: string, held: string)
    requires Fits(b, max)
  {
    forall rest: string :: Restore(b, run + rest, max) == done + Restore(b, held + rest, max)
  }

  lemma PushStandsFor(b: Binding, max: nat, run: string, done: string, held: string, text: string)
    requires Fits(b, max) && Unnested(b) && ReadsOnce(b, max) && StandsFor(b, max, run, done, held)
    ensures var (out, kept) := Push(b, max, held, text); StandsFor(b, max, run + text, done + out, kept)
  {
    hide Restore, Push;
    var (out, kept) := Push(b, max, held, text);
    forall rest: string
      ensures Restore(b, run + text + rest, max) == done + out + Restore(b, kept + rest, max)
    {
      Associative(run, text, rest);
      Associative(held, text, rest);
      assert Restore(b, run + (text + rest), max) == done + Restore(b, held + (text + rest), max);
      PushRestores(b, max, held, text, rest);
      Associative(done, out, Restore(b, kept + rest, max));
    }
  }

  lemma RunSoFar(b: Binding, max: nat, run: string, done: string, held: string)
    requires Fits(b, max) && StandsFor(b, max, run, done, held)
    ensures Letters(Restore(b, run, max)) == Letters(done) + Letters(Restore(b, held, max))
  {
    hide Restore, Letters;
    assert run + "" == run && held + "" == held;
    assert Restore(b, run + "", max) == done + Restore(b, held + "", max);
    LettersConcat(done, Restore(b, held, max));
  }

  lemma {:induction false} HandOnSpells(b: Binding, max: nat, run: string, done: string, held: string,
      chunks: seq<Chunk>)
    requires Fits(b, max) && Unnested(b) && ReadsOnce(b, max) && StandsFor(b, max, run, done, held)
    ensures var (out, last) := HandOn(b, max, held, chunks);
            Letters(done) + Spell(out) + Letters(Restore(b, last, max)) == RunByRun(b, max, run, chunks)
    decreases |chunks|
  {
    hide Restore, Letters, StandsFor, Spell, Passed, Push;
    if chunks == [] {
      RunSoFar(b, max, run, done, held);
      assert Spell([]) == [] by { SpellOfNothing(); }
      assert Letters(done) + [] == Letters(done);
    } else if chunks[0].Text? {
      var (out, kept) := Push(b, max, held, chunks[0].text);
      var (rest, last) := HandOn(b, max, kept, chunks[1..]);
      PushStandsFor(b, max, run, done, held, chunks[0].text);
      HandOnSpells(b, max, run + chunks[0].text, done + out, kept, chunks[1..]);
      LettersConcat(done, out);
      SpellConcat(Piece(out), rest);
      SpellPiece(out);
      Associative(Letters(done), Letters(out), Spell(rest));
    } else {
      var (rest, last) := HandOn(b, max, "", chunks[1..]);
      var piece := Piece(Restore(b, held, max));
      var item := Passed(b, max, chunks[0]);
      RunSoFar(b, max, run, done, held);
      assert StandsFor(b, max, "", "", "") by { NothingStandsForNothing(b, max); }
      HandOnSpells(b, max, "", "", "", chunks[1..]);
      SpellConcat(piece + [item], rest);
      SpellConcat(piece, [item]);
      SpellPiece(Restore(b, held, max));
      assert Spell([item]) == [Item(item)] by { SpellItem(b, max, chunks[0]); }
      HandOnItem(Letters(done), Letters(Restore(b, held, max)), [Item(item)], Spell(rest),
        Letters(Restore(b, last, max)));
      assert Letters("") == [] by { LettersOfNothing(); }
      assert [] + Spell(rest) == Spell(rest);
    }
  }

  lemma HandOnItem<T>(a: seq<T>, b: seq<T>, c: seq<T>, d: seq<T>, e: seq<T>)
    ensures a + (b + c + d) + e == a + b + c + (d + e)
  {
  }

  lemma NothingStandsForNothing(b: Binding, max: nat)
    requires Fits(b, max)
    ensures StandsFor(b, max, "", "", "")
  {
    forall rest: string
      ensures Restore(b, "" + rest, max) == "" + Restore(b, "" + rest, max)
    {
    }
  }

  lemma LettersOfNothing()
    ensures Letters("") == []
  {
  }

  lemma SpellOfNothing()
    ensures Spell([]) == []
  {
  }

  lemma SpellItem(b: Binding, max: nat, chunk: Chunk)
    requires Fits(b, max) && !chunk.Text?
    ensures Spell([Passed(b, max, chunk)]) == [Item(Passed(b, max, chunk))]
  {
    hide RestoreStrings;
    assert [Passed(b, max, chunk)][1..] == [];
  }

  // ----- The theorems -----

  /** Held-back restoration is whole-text restoration: the stream spells each run of text restored whole, and every
    * other chunk in its own place between the runs, however the vendor cut the text. */
  lemma StreamRestoresRunByRun(b: Binding, max: nat, chunks: seq<Chunk>)
    requires Fits(b, max) && Unnested(b) && ReadsOnce(b, max)
    ensures Spell(SendMessage(b, max, chunks)) == RunByRun(b, max, "", chunks)
  {
    hide Restore, Letters, Spell, RunByRun;
    var (out, held) := HandOn(b, max, "", chunks);
    assert StandsFor(b, max, "", "", "") by { NothingStandsForNothing(b, max); }
    HandOnSpells(b, max, "", "", "", chunks);
    SpellConcat(out, Piece(Restore(b, held, max)));
    SpellPiece(Restore(b, held, max));
    assert Letters("") == [] by { LettersOfNothing(); }
    assert [] + Spell(out) == Spell(out);
  }

  /** A vendor that fails mid-stream leaves a true beginning handed on, short of the whole by what was held. */
  lemma FailedStreamIsAPrefix(b: Binding, max: nat, chunks: seq<Chunk>)
    requires Fits(b, max) && Unnested(b) && ReadsOnce(b, max)
    ensures var (out, held) := HandOn(b, max, "", chunks);
            Spell(out) + Letters(Restore(b, held, max)) == RunByRun(b, max, "", chunks)
  {
    hide Restore, Letters, Spell, RunByRun;
    var (out, held) := HandOn(b, max, "", chunks);
    assert StandsFor(b, max, "", "", "") by { NothingStandsForNothing(b, max); }
    HandOnSpells(b, max, "", "", "", chunks);
    assert Letters("") == [] by { LettersOfNothing(); }
    assert [] + Spell(out) == Spell(out);
  }

  /** No chunk of text handed on is empty, unless the vendor's other chunks are. */
  lemma {:induction false} NoEmptyText(b: Binding, max: nat, held: string, chunks: seq<Chunk>)
    requires Fits(b, max)
    ensures forall c :: c in HandOn(b, max, held, chunks).0 && c.Text? ==> c.text != ""
    decreases |chunks|
  {
    hide Restore, RestoreStrings;
    if chunks != [] {
      if chunks[0].Text? {
        NoEmptyText(b, max, Push(b, max, held, chunks[0].text).1, chunks[1..]);
      } else {
        NoEmptyText(b, max, "", chunks[1..]);
      }
    }
  }

  /** What is held never grows past the announced bound, so no text waits longer than a token could need. */
  lemma HeldIsBounded(b: Binding, max: nat, held: string, text: string)
    requires Fits(b, max)
    ensures |Push(b, max, held, text).1| <= Keep(max)
  {
    hide Restore;
  }
}
