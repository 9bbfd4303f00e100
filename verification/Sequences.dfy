/** Sequence identities, proved away from the functions that use them. */
module Sequences {
  lemma SplitLast<T>(s: seq<T>)
    requires s != []
    ensures s == s[..|s| - 1] + [s[|s| - 1]]
  {
  }

  lemma DropLast<T>(s: seq<T>, x: T)
    ensures (s + [x])[..|s|] == s
  {
  }

  lemma SplitAt<T>(s: seq<T>, p: nat)
    requires p < |s|
    ensures (s[..p] + [s[p]]) + s[p + 1..] == s
  {
  }

  lemma Associative<T>(a: seq<T>, b: seq<T>, c: seq<T>)
    ensures (a + b) + c == a + (b + c)
  {
  }

  lemma WholeSlices<T>(s: seq<T>)
    ensures s[..0] == [] && s[0..] == s && s[..|s|] == s && s[|s|..] == []
  {
  }

  lemma HeadTail<T>(x: T, a: seq<T>, b: seq<T>)
    ensures ([x] + a) + b == [x] + (a + b)
  {
  }

  lemma EmptyEnds<T>(s: seq<T>)
    ensures s + [] == s && [] + s == s
  {
  }

  lemma TailOfCons<T>(x: T, s: seq<T>)
    ensures ([x] + s)[0] == x && ([x] + s)[1..] == s
  {
  }

  lemma ThreeHeads<T>(a: T, b: T, c: T, rest: seq<T>)
    ensures [a, b, c] + rest == [a] + ([b] + ([c] + rest))
    ensures |[b] + ([c] + rest)| == |rest| + 2 && |[c] + rest| == |rest| + 1
  {
  }
}
