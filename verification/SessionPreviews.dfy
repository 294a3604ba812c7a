/** A conversation's opening question as a list label: at most 120 code points of it, over UTF-16 units. */
module SessionPreviews {
  import opened Wrappers
  import opened Sequences

  type Unit = u: int | 0 <= u < 0x1_0000

  type Text = seq<Unit>

  const MAX_CODE_POINTS: nat := 120
  const SPACE: Unit := 0x20
  const JOINER: Unit := 0x200D

  /** The units `\s` matches. */
  predicate White(u: Unit) {
    || 9 <= u <= 13 || u == SPACE || u == 0xA0 || u == 0x1680 || 0x2000 <= u <= 0x200A
    || u == 0x2028 || u == 0x2029 || u == 0x202F || u == 0x205F || u == 0x3000 || u == 0xFEFF
  }

  predicate High(u: Unit) {
    0xD800 <= u < 0xDC00
  }

  predicate Low(u: Unit) {
    0xDC00 <= u < 0xE000
  }

  /** The two halves of a surrogate pair, by the bits that mark them. */
  lemma SurrogatesAre(u: Unit)
    ensures High(u) <==> u / 0x400 == 0x36
    ensures Low(u) <==> u / 0x400 == 0x37
  {
  }

  /** What a cut can strand at the end. */
  predicate Break(u: Unit) {
    White(u) || u == JOINER
  }

  // ----- Whitespace -----

  function DropWhite(text: Text): (rest: Text)
    ensures |rest| <= |text| && (rest != [] ==> !White(rest[0]))
  {
    if text != [] && White(text[0]) then DropWhite(text[1..]) else text
  }

  function Spaced(text: Text): Text
    decreases |text|
  {
    if text == [] then []
    else if White(text[0]) then [SPACE] + Spaced(DropWhite(text[1..]))
    else [text[0]] + Spaced(text[1..])
  }

  function DropTrailing(text: Text, drops: Unit -> bool): (kept: Text)
    ensures kept <= text
    ensures kept != [] ==> !drops(kept[|kept| - 1])
    ensures forall i :: |kept| <= i < |text| ==> drops(text[i])
  {
    if text != [] && drops(text[|text| - 1]) then DropTrailing(text[..|text| - 1], drops) else text
  }

  function Trim(text: Text): Text {
    DropTrailing(DropWhite(text), White)
  }

  function Collapsed(text: Text): Text {
    Trim(Spaced(text))
  }

  // ----- Code points -----

  /** How many units the first code point takes: two for an intact surrogate pair. */
  function Width(text: Text): (n: nat)
    requires text != []
    ensures 1 <= n <= 2 && n <= |text|
  {
    if |text| >= 2 && High(text[0]) && Low(text[1]) then 2 else 1
  }

  function Points(text: Text): (points: seq<Text>)
    decreases |text|
  {
    if text == [] then [] else [text[..Width(text)]] + Points(text[Width(text)..])
  }

  function Join(points: seq<Text>): Text {
    if points == [] then [] else points[0] + Join(points[1..])
  }

  function FirstOf<T>(s: seq<T>, count: nat): seq<T> {
    if |s| <= count then s else s[..count]
  }

  // ----- The label -----

  function NonEmpty(text: Text): Option<Text> {
    if text == [] then None else Some(text)
  }

  function LabelFrom(text: Text): Option<Text> {
    var collapsed := Collapsed(text);
    var bounded := FirstOf(collapsed, 2 * MAX_CODE_POINTS);
    var points := Points(bounded);
    var kept := Join(FirstOf(points, MAX_CODE_POINTS));
    if |points| <= MAX_CODE_POINTS && |bounded| == |collapsed| then NonEmpty(kept)
    else NonEmpty(DropTrailing(kept, Break))
  }

  /** The label without the early slice: all the text's code points, cut at the bound, tidied only where cut. */
  function PlainLabel(text: Text): Option<Text> {
    var points := Points(Collapsed(text));
    if |points| <= MAX_CODE_POINTS then NonEmpty(Collapsed(text))
    else NonEmpty(DropTrailing(Join(points[..MAX_CODE_POINTS]), Break))
  }

  lemma {:induction false} PointsJoin(text: Text)
    ensures Join(Points(text)) == text
    ensures |Points(text)| <= |text| <= 2 * |Points(text)|
    decreases |text|
  {
    if text != [] {
      PointsJoin(text[Width(text)..]);
      assert text == text[..Width(text)] + text[Width(text)..];
    }
  }

  /** The first k code points joined are a prefix of the text that reads back as those code points. */
  lemma {:induction false} PrefixOfPoints(text: Text, k: nat)
    requires k <= |Points(text)|
    ensures Join(Points(text)[..k]) <= text && Points(Join(Points(text)[..k])) == Points(text)[..k]
    ensures k <= |Join(Points(text)[..k])| <= 2 * k
    decreases |text|
  {
    if k > 0 {
      var w := Width(text);
      PrefixOfPoints(text[w..], k - 1);
      var rest := Join(Points(text[w..])[..k - 1]);
      var joined := Join(Points(text)[..k]);
      assert Points(text)[..k] == [text[..w]] + Points(text[w..])[..k - 1];
      assert Points(text)[..k][1..] == Points(text[w..])[..k - 1];
      assert joined == text[..w] + rest;
      assert text == text[..w] + text[w..];
      assert rest <= text[w..];
      assert joined[..w] == text[..w] && joined[w..] == rest;
      assert Width(joined) == w;
    }
  }

  /** A prefix of the text agrees with it on its first points, all but the one the cut may have split. */
  lemma {:induction false} SlicePoints(text: Text, units: nat, k: nat)
    requires units <= |text| && 2 * k <= units
    ensures k <= |Points(text)| && k <= |Points(text[..units])|
    ensures Points(text[..units])[..k] == Points(text)[..k]
    decreases k
  {
    if k > 0 {
      var w := Width(text);
      var slice := text[..units];
      assert Width(slice) == w && slice[..w] == text[..w];
      assert slice[w..] == text[w..][..units - w];
      SlicePoints(text[w..], units - w, k - 1);
      assert Points(slice)[..k] == [slice[..w]] + Points(slice[w..])[..k - 1];
      assert Points(text)[..k] == [text[..w]] + Points(text[w..])[..k - 1];
    }
  }

  /** The early slice is invisible: no half of a surrogate pair it may split, nor anything else it drops, is ever in the
    * label. */
  lemma PreSliceIsInvisible(text: Text)
    ensures LabelFrom(text) == PlainLabel(text)
  {
    hide Points, Join, Collapsed, DropTrailing, NonEmpty;
    var collapsed := Collapsed(text);
    PointsJoin(collapsed);
    if |collapsed| > 2 * MAX_CODE_POINTS {
      SlicePoints(collapsed, 2 * MAX_CODE_POINTS, MAX_CODE_POINTS);
      var points := Points(collapsed[..2 * MAX_CODE_POINTS]);
      assert FirstOf(points, MAX_CODE_POINTS) == points[..MAX_CODE_POINTS];
    }
  }

  // ----- What a label is -----

  predicate IsTrimmed(text: Text) {
    text == [] || (!White(text[0]) && !White(text[|text| - 1]))
  }

  /** Every run of whitespace is a single space. */
  predicate IsSpaced(text: Text) {
    forall i :: 0 <= i < |text| && White(text[i]) ==> text[i] == SPACE && (i + 1 < |text| ==> !White(text[i + 1]))
  }

  lemma {:induction false} SpacedIsSpaced(text: Text)
    ensures IsSpaced(Spaced(text))
    ensures text != [] && !White(text[0]) ==> Spaced(text) != [] && !White(Spaced(text)[0])
    decreases |text|
  {
    if text != [] {
      var rest := if White(text[0]) then DropWhite(text[1..]) else text[1..];
      SpacedIsSpaced(rest);
      var out := Spaced(text);
      assert out[1..] == Spaced(rest);
      forall i | 0 <= i < |out| && White(out[i])
        ensures out[i] == SPACE && (i + 1 < |out| ==> !White(out[i + 1]))
      {
        if i > 0 {
          assert out[i] == Spaced(rest)[i - 1];
        } else if |out| > 1 {
          assert out[1] == Spaced(rest)[0];
        }
      }
    }
  }

  lemma {:induction false} DropWhiteIsATail(text: Text) returns (k: nat)
    ensures k <= |text| && DropWhite(text) == text[k..]
  {
    k := 0;
    if text != [] && White(text[0]) {
      var rest := DropWhiteIsATail(text[1..]);
      k := rest + 1;
    }
  }

  lemma CollapsedIsTidy(text: Text)
    ensures IsSpaced(Collapsed(text)) && IsTrimmed(Collapsed(text))
  {
    hide White, Spaced;
    SpacedIsSpaced(text);
    var spaced := Spaced(text);
    var k := DropWhiteIsATail(spaced);
    var dropped := DropWhite(spaced);
    var trimmed := Trim(spaced);
    assert forall i :: 0 <= i < |trimmed| ==> trimmed[i] == spaced[k + i];
    assert trimmed != [] ==> trimmed[0] == dropped[0];
  }

  // ----- What collapsing keeps -----

  /** The text's words: its unbroken runs of anything but whitespace, in order. */
  function Words(text: Text): seq<Text>
    decreases |text|
  {
    if text == [] then []
    else if White(text[0]) then Words(text[1..])
    else [text[..WordLength(text)]] + Words(text[WordLength(text)..])
  }

  /** How far the first word goes. */
  function WordLength(text: Text): (n: nat)
    ensures n <= |text| && (text != [] && !White(text[0]) ==> n > 0)
    ensures forall i :: 0 <= i < n ==> !White(text[i])
    ensures n < |text| ==> White(text[n])
  {
    if text == [] || White(text[0]) then 0 else 1 + WordLength(text[1..])
  }

  /** Words with a single space between each two. */
  function Spoken(words: seq<Text>): Text {
    if words == [] then []
    else if |words| == 1 then words[0]
    else words[0] + [SPACE] + Spoken(words[1..])
  }

  lemma {:induction false} DroppingKeepsWords(text: Text)
    ensures Words(DropWhite(text)) == Words(text)
  {
    if text != [] && White(text[0]) {
      DroppingKeepsWords(text[1..]);
    }
  }

  /** The first word, and what is left from the next one on. */
  lemma FirstWord(text: Text) returns (word: Text, after: Text)
    requires text != [] && !White(text[0])
    ensures word != [] && !White(word[|word| - 1]) && |after| < |text| && (after != [] ==> !White(after[0]))
    ensures Words(text) == [word] + Words(after)
    ensures Spaced(text) == word || Spaced(text) == word + [SPACE] + Spaced(after)
    ensures Spaced(text) == word ==> after == []
  {
    hide White;
    var n := WordLength(text);
    word := text[..n];
    var rest := text[n..];
    SpacedWord(text, n);
    assert word[n - 1] == text[n - 1];
    if rest == [] {
      after := [];
      assert word + [] == word;
    } else {
      assert White(rest[0]);
      after := DropWhite(rest[1..]);
      DroppingKeepsWords(rest[1..]);
      assert Spaced(rest) == [SPACE] + Spaced(after);
      assert word + ([SPACE] + Spaced(after)) == word + [SPACE] + Spaced(after);
    }
  }

  /** Spaced text is its words spoken, but perhaps for a space at its end. */
  predicate Says(spaced: Text, words: seq<Text>) {
    && (spaced == Spoken(words) || spaced == Spoken(words) + [SPACE])
    && (words == [] ==> spaced == [])
    && (words != [] ==> Spoken(words) != [] && !White(Spoken(words)[|Spoken(words)| - 1]))
  }

  lemma {:induction false} SpacedIsSpoken(text: Text)
    requires text == [] || !White(text[0])
    ensures Says(Spaced(text), Words(text)) && (text != [] ==> Words(text) != [])
    decreases |text|
  {
    hide White, Spaced, Words, Says;
    if text == [] {
      NothingIsSpoken();
    } else {
      var word, after := FirstWord(text);
      SpacedIsSpoken(after);
      NothingIsSpoken();
      OneWordMore(word, Spaced(after), Words(after));
      assert Spaced(text) == word ==> Words(after) == [];
    }
  }

  lemma OneWordMore(word: Text, spaced: Text, words: seq<Text>)
    requires word != [] && !White(word[|word| - 1]) && Says(spaced, words)
    ensures Says(word + [SPACE] + spaced, [word] + words) && (words == [] ==> Says(word, [word] + words))
  {
    hide White;
    SpokenOn(word, words);
    hide Spoken;
    if words == [] {
      assert word + [SPACE] + [] == word + [SPACE];
    } else {
      var said := Spoken(words);
      assert (word + [SPACE] + said)[|word| + 1 + |said| - 1] == said[|said| - 1];
      assert word + [SPACE] + (said + [SPACE]) == word + [SPACE] + said + [SPACE];
    }
  }

  lemma SpokenOn(word: Text, words: seq<Text>)
    ensures Spoken([word] + words) == if words == [] then word else word + [SPACE] + Spoken(words)
  {
    assert ([word] + words)[1..] == words;
  }

  lemma {:induction false} SpacedWord(text: Text, n: nat)
    requires n <= |text| && forall i :: 0 <= i < n ==> !White(text[i])
    ensures Spaced(text) == text[..n] + Spaced(text[n..])
    decreases n
  {
    if n > 0 {
      SpacedWord(text[1..], n - 1);
      assert text[1..][n - 1..] == text[n..];
      assert text[..n] == [text[0]] + text[1..][..n - 1];
    }
  }

  lemma TrailOf(text: Text, said: Text)
    requires said != [] ==> !White(said[|said| - 1])
    requires text == said || text == said + [SPACE]
    ensures DropTrailing(text, White) == said
  {
    if text == said + [SPACE] {
      assert text[..|text| - 1] == said;
    }
  }

  lemma OpenedThenSpaced(text: Text)
    ensures DropWhite(Spaced(text)) == Spaced(DropWhite(text))
  {
    if text != [] && White(text[0]) {
      var open := DropWhite(text[1..]);
      SpacedIsSpaced(open);
      assert Spaced(text)[1..] == Spaced(open);
    }
  }

  /** Collapsing keeps every word, whole and in order, and puts one space between each two. */
  lemma CollapsedIsItsWords(text: Text)
    ensures Collapsed(text) == Spoken(Words(text))
  {
    hide White, DropTrailing, Spaced, Words, Spoken;
    var open := DropWhite(text);
    OpenedThenSpaced(text);
    DroppingKeepsWords(text);
    SpacedIsSpoken(open);
    NothingIsSpoken();
    TrailOf(Spaced(open), Spoken(Words(open)));
  }

  lemma NothingIsSpoken()
    ensures Words([]) == [] && Spoken([]) == [] && Says(Spaced([]), Words([]))
  {
  }

  /** The units that count as whitespace, one by one. */
  lemma WhiteIs(u: Unit)
    ensures White(u) <==> u in {0x09, 0x0A, 0x0B, 0x0C, 0x0D, 0x20, 0xA0, 0x1680, 0x2000, 0x2001, 0x2002, 0x2003,
      0x2004,
                                0x2005, 0x2006, 0x2007, 0x2008, 0x2009, 0x200A, 0x2028, 0x2029, 0x202F, 0x205F, 0x3000,
                                0xFEFF}
  {
  }

  lemma {:induction false} SpacedLeavesSpaced(text: Text)
    requires IsSpaced(text)
    ensures Spaced(text) == text
    decreases |text|
  {
    if text != [] {
      SpacedLeavesSpaced(text[1..]);
      assert White(text[0]) ==> DropWhite(text[1..]) == text[1..];
      assert text == [text[0]] + text[1..];
    }
  }

  /** Tidy text is left as it is. */
  lemma CollapsedLeavesTidy(text: Text)
    requires IsSpaced(text) && IsTrimmed(text)
    ensures Collapsed(text) == text
  {
    SpacedLeavesSpaced(text);
  }

  lemma PrefixIsTidy(text: Text, kept: Text)
    requires IsSpaced(text) && IsTrimmed(text) && kept <= text && (kept != [] ==> !White(kept[|kept| - 1]))
    ensures IsSpaced(kept) && IsTrimmed(kept)
  {
  }

  /** Dropping breaks off the end drops whole code points: none of them is half of a pair. */
  lemma {:induction false} DropTrailingDropsPoints(text: Text) returns (k: nat)
    ensures k <= |Points(text)| && DropTrailing(text, Break) == Join(Points(text)[..k])
    decreases |text|
  {
    PointsJoin(text);
    k := |Points(text)|;
    assert Points(text)[..k] == Points(text);
    if text != [] && Break(text[|text| - 1]) {
      LastUnitIsAPoint(text);
      k := DropTrailingDropsPoints(text[..|text| - 1]);
      assert Points(text)[..|Points(text)| - 1][..k] == Points(text)[..k];
    }
  }

  lemma PointsUnfold(text: Text)
    requires text != []
    ensures Points(text) == [text[..Width(text)]] + Points(text[Width(text)..])
  {
  }

  lemma OneUnitIsAPoint(text: Text)
    requires text != [] && |text| == Width(text) && Break(text[|text| - 1])
    ensures |text| == 1 && Points(text) == [text] && Points(text[..0]) == []
  {
    assert text[Width(text)..] == [] && text[..Width(text)] == text;
  }

  /** A break at the end is a code point of its own: a low surrogate is none. */
  lemma {:induction false} LastUnitIsAPoint(text: Text)
    requires text != [] && Break(text[|text| - 1])
    ensures Points(text) != [] && Points(text[..|text| - 1]) == Points(text)[..|Points(text)| - 1]
    decreases |text|
  {
    hide Points, Break, High, Low;
    var n := |text| - 1;
    var w := Width(text);
    if |text| == w {
      OneUnitIsAPoint(text);
      assert Points(text)[..0] == [];
    } else {
      var rest, short := text[w..], text[..n];
      assert rest[|rest| - 1] == text[n];
      LastUnitIsAPoint(rest);
      assert short[w..] == rest[..|rest| - 1] && short[..w] == text[..w];
      ShorterKeepsWidth(text);
      PointsUnfold(text);
      PointsUnfold(short);
      var points := Points(rest);
      assert ([text[..w]] + points)[..|points|] == [text[..w]] + points[..|points| - 1];
    }
  }

  lemma ShorterKeepsWidth(text: Text)
    requires text != [] && Width(text) < |text|
    requires Break(text[|text| - 1])
    ensures Width(text[..|text| - 1]) == Width(text)
  {
  }

  /** From here on there are only spaces and joiners. */
  predicate BreaksFrom(text: Text, from: nat) {
    forall i :: from <= i < |text| ==> White(text[i]) || text[i] == 0x200D
  }

  /** There is no label exactly when the first 120 code points of the collapsed text are none, or nothing but breaks. */
  lemma NoLabelWhenNothingToShow(text: Text)
    ensures LabelFrom(text).None? <==>
              var points := Points(Collapsed(text));
              if |points| <= 120 then Collapsed(text) == [] else BreaksFrom(Join(points[..120]), 0)
  {
    PreSliceIsInvisible(text);
    hide Points, Join, Collapsed;
    var points := Points(Collapsed(text));
    if |points| > 120 {
      var cut := Join(points[..120]);
      var kept := DropTrailing(cut, Break);
      assert kept != [] ==> !Break(cut[|kept| - 1]);
    }
  }

  /** A label is the first code points of the collapsed text, at most 120 of them, and tidy at both ends where they were
    * cut. */
  lemma LabelIsFirstPoints(text: Text) returns (k: nat)
    requires LabelFrom(text).Some?
    ensures var l, points := LabelFrom(text).value, Points(Collapsed(text));
            && k <= |points| && k <= 120
            && Points(l) == points[..k] && l == Join(points[..k]) && l <= Collapsed(text)
            && l != [] && !White(l[|l| - 1])
            && (if |points| <= 120 then l == Collapsed(text)
                else l[|l| - 1] != 0x200D && BreaksFrom(Join(points[..120]), |l|))
  {
    PreSliceIsInvisible(text);
    var c := Collapsed(text);
    CollapsedIsTidy(text);
    PointsJoin(c);
    var points := Points(c);
    hide Collapsed, Points, Join, LabelFrom, IsSpaced;
    if |points| <= MAX_CODE_POINTS {
      k := |points|;
      assert points[..k] == points;
    } else {
      var cut := Join(points[..MAX_CODE_POINTS]);
      PrefixOfPoints(c, MAX_CODE_POINTS);
      k := DropTrailingDropsPoints(cut);
      assert points[..MAX_CODE_POINTS][..k] == points[..k];
      PrefixOfPoints(c, k);
    }
  }

  /** Labelling a label changes nothing, so the store's label and the wire's cannot differ. */
  lemma LabelIsAFixedPoint(text: Text)
    requires LabelFrom(text).Some?
    ensures LabelFrom(LabelFrom(text).value) == LabelFrom(text)
  {
    hide Points, Join, Collapsed, IsSpaced, IsTrimmed, DropTrailing;
    var l := LabelFrom(text).value;
    var k := LabelIsFirstPoints(text);
    CollapsedIsTidy(text);
    PrefixIsTidy(Collapsed(text), l);
    CollapsedLeavesTidy(l);
    PreSliceIsInvisible(l);
  }

  /** No label ends in half of a surrogate pair the text held whole, and none has more than 120 code points. */
  lemma LabelSplitsNoPair(text: Text)
    requires LabelFrom(text).Some?
    ensures var l, c := LabelFrom(text).value, Collapsed(text);
            && |Points(l)| <= 120
            && l <= c
            && (|l| < |c| ==> !(High(l[|l| - 1]) && Low(c[|l|])))
  {
    var k := LabelIsFirstPoints(text);
    var c := Collapsed(text);
    if |LabelFrom(text).value| < |c| {
      CutFallsBetweenPairs(c, k);
    }
  }

  lemma {:induction false} CutFallsBetweenPairs(text: Text, k: nat)
    requires 0 < k <= |Points(text)| && |Join(Points(text)[..k])| < |text|
    requires Join(Points(text)[..k]) != []
    ensures var l := Join(Points(text)[..k]); !(High(l[|l| - 1]) && Low(text[|l|]))
    decreases |text|
  {
    var w := Width(text);
    var l := Join(Points(text)[..k]);
    assert Points(text)[..k][1..] == Points(text[w..])[..k - 1];
    var rest := Join(Points(text[w..])[..k - 1]);
    assert l == text[..w] + rest;
    if k > 1 {
      PrefixOfPoints(text[w..], k - 1);
      CutFallsBetweenPairs(text[w..], k - 1);
      assert l[|l| - 1] == rest[|rest| - 1] && text[|l|] == text[w..][|rest|];
    } else {
      assert rest == [];
    }
  }
}
