/** Identities of sequence concatenation and slicing, stated once for every element type. */
module Seqs {
  /** A non-empty sequence is its first element followed by the rest. */
  lemma SplitFirst<T>(s: seq<T>)
    requires s != []
    ensures s == [s[0]] + s[1..]
  {
  }

  /** A non-empty sequence is its front followed by its last element. */
  lemma SplitLast<T>(s: seq<T>)
    requires s != []
    ensures s == s[..|s| - 1] + [s[|s| - 1]]
  {
  }

  /** A sequence around its `i`-th element. */
  lemma SplitAt<T>(s: seq<T>, i: int)
    requires 0 <= i < |s|
    ensures s == s[..i] + ([s[i]] + s[i + 1..])
  {
  }

  /** The pieces of a concatenation, read back by index. */
  lemma ConcatParts<T>(s: seq<T>, p: seq<T>, q: seq<T>)
    requires s == p + q && q != []
    ensures s[..|p|] == p && s[|p|] == q[0] && s[|p| + 1..] == q[1..]
  {
  }

  /** Replacing the `i`-th element of a sequence. */
  lemma UpdateAt<T>(s: seq<T>, i: int, x: T)
    requires 0 <= i < |s|
    ensures s[i := x] == s[..i] + ([x] + s[i + 1..])
  {
  }

  /** The first element and the rest of a concatenation. */
  lemma ConcatFront<T>(a: seq<T>, b: seq<T>)
    ensures a == [] ==> a + b == b
    ensures a != [] ==> (a + b)[0] == a[0] && (a + b)[1..] == a[1..] + b
  {
  }

  /** Concatenation is associative. */
  lemma Associative<T>(a: seq<T>, b: seq<T>, c: seq<T>)
    ensures (a + b) + c == a + (b + c)
  {
  }
}
