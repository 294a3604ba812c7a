/** What the modules about text share: how it concatenates, and what opens it. */
module Sequences {

  predicate Opens(part: string, text: string) {
    |part| <= |text| && text[..|part|] == part
  }

  lemma Associative<T>(a: seq<T>, b: seq<T>, c: seq<T>)
    ensures a + (b + c) == a + b + c
  {
  }

  lemma SplitConcat<T>(a: seq<T>, b: seq<T>, at: nat)
    requires at <= |a|
    ensures (a + b)[..at] == a[..at]
    ensures (a + b)[at..] == a[at..] + b
  {
  }
}
