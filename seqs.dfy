/**
 * Facts about sequences that the report's proofs use again and again,
 * stated once for every element type.
 */
module Seqs {

  lemma Assoc<X>(a: seq<X>, b: seq<X>, c: seq<X>)
    ensures a + b + c == a + (b + c)
  {
  }

  lemma AppendNil<X>(s: seq<X>)
    ensures s + [] == s && [] + s == s
  {
  }

  lemma TakeSnoc<X>(s: seq<X>, i: int)
    requires 0 <= i < |s|
    ensures s[..i + 1] == s[..i] + [s[i]]
  {
  }

  lemma TakeNone<X>(s: seq<X>)
    ensures s[..0] == []
  {
  }

  lemma TakeAll<X>(s: seq<X>)
    ensures s[..|s|] == s
  {
  }

  /** Appending one element does not change the head, and the tail grows by that element. */
  lemma SnocTail<X>(s: seq<X>, x: X)
    requires s != []
    ensures (s + [x])[0] == s[0] && (s + [x])[1..] == s[1..] + [x]
  {
  }

  lemma AppendTail<X>(a: seq<X>, b: seq<X>)
    requires a != []
    ensures (a + b)[0] == a[0] && (a + b)[1..] == a[1..] + b
  {
  }

  lemma Singleton<X>(x: X)
    ensures [x][0] == x && [x][1..] == []
  {
  }

  lemma ConsTail<X>(x: X, s: seq<X>)
    ensures ([x] + s)[0] == x && ([x] + s)[1..] == s
  {
  }

  lemma Snoc2<X>(s: seq<X>, a: X, b: X)
    ensures s + [a] + [b] == s + [a, b]
  {
  }
}
