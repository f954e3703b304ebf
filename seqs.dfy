/**
 * Generic facts about sequences of lines: concatenating a block per
 * element, and where the parts of a concatenation sit.
 */
module Seqs {

  /** The blocks `f` gives for the elements of `xs`, one after another. */
  function ConcatMap<T, U>(f: T -> seq<U>, xs: seq<T>): seq<U>
    decreases |xs|
  {
    if xs == [] then [] else ConcatMap(f, xs[..|xs| - 1]) + f(xs[|xs| - 1])
  }

  /** Extending the run by one element appends that element's block. */
  lemma {:induction false} ConcatMapSnoc<T, U>(f: T -> seq<U>, xs: seq<T>, i: nat)
    requires i < |xs|
    ensures ConcatMap(f, xs[..i + 1]) == ConcatMap(f, xs[..i]) + f(xs[i])
  {
    assert xs[..i + 1][..i] == xs[..i];
  }

  /** The concatenation is empty exactly when every block is. */
  lemma {:induction false} ConcatMapEmpty<T, U>(f: T -> seq<U>, xs: seq<T>)
    ensures ConcatMap(f, xs) == [] <==> forall i :: 0 <= i < |xs| ==> f(xs[i]) == []
    decreases |xs|
  {
    if xs != [] {
      var init := xs[..|xs| - 1];
      ConcatMapEmpty(f, init);
      if ConcatMap(f, xs) == [] {
        forall i | 0 <= i < |xs| ensures f(xs[i]) == [] {
          if i < |xs| - 1 {
            assert xs[i] == init[i];
          }
        }
      } else {
        assert f(xs[|xs| - 1]) != [] || ConcatMap(f, init) != [];
      }
    }
  }

  /** Where each part of a four-part concatenation sits. */
  lemma {:induction false} ConcatSlices<T>(a: seq<T>, b: seq<T>, c: seq<T>, d: seq<T>)
    ensures var s := a + b + c + d;
      && |s| == |a| + |b| + |c| + |d|
      && s[..|a|] == a
      && s[|a|..|a| + |b|] == b
      && s[|a| + |b|..|s| - |d|] == c
      && s[|a|..|s| - |d|] == b + c
      && s[|s| - |d|..] == d
  {
    var s := a + b + c + d;
    assert s[|a|..|s| - |d|] == b + c;
  }

  // The lemmas below are proof hints with empty bodies: each names one
  // instance of sequence associativity or indexing that a caller needs, so
  // that the caller's proof does not have to search for it.

  /** The last two elements of `a + b` are those of a two-element `b`. */
  lemma {:induction false} LastTwo<T>(a: seq<T>, b: seq<T>)
    requires |b| == 2
    ensures var s := a + b; |s| >= 2 && s[|s| - 1] == b[1] && s[|s| - 2] == b[0]
  {
  }

  /** Appending elements one at a time appends them as one display. */
  lemma {:induction false} AppendEach2<T>(s: seq<T>, a: T, b: T)
    ensures s + [a] + [b] == s + [a, b]
  {
  }

  /** Appending elements one at a time appends them as one display. */
  lemma {:induction false} AppendEach3<T>(s: seq<T>, a: T, b: T, c: T)
    ensures s + [a] + [b] + [c] == s + [a, b, c]
  {
  }

  /** Appending elements one at a time appends them as one display. */
  lemma {:induction false} AppendEach4<T>(s: seq<T>, a: T, b: T, c: T, d: T)
    ensures s + [a] + [b] + [c] + [d] == s + [a, b, c, d]
  {
  }

  /** Appending elements one at a time appends them as one display. */
  lemma {:induction false} AppendEach6<T>(s: seq<T>, a: T, b: T, c: T, d: T, e: T, f: T)
    ensures s + [a] + [b] + [c] + [d] + [e] + [f] == s + [a, b, c, d, e, f]
  {
  }

  /** Appending two parts in a row appends their concatenation. */
  lemma {:induction false} AppendTwo<T>(s: seq<T>, x: seq<T>, y: seq<T>)
    ensures s + x + y == s + (x + y)
  {
  }

  /** Appending three parts in a row appends their concatenation. */
  lemma {:induction false} AppendThree<T>(s: seq<T>, x: seq<T>, y: seq<T>, z: seq<T>)
    ensures s + x + y + z == s + (x + y + z)
  {
  }

  /** Appending four parts in a row appends their concatenation. */
  lemma {:induction false} AppendFour<T>(s: seq<T>, a: seq<T>, b: seq<T>, c: seq<T>, d: seq<T>)
    ensures s + a + b + c + d == s + (a + b + c + d)
  {
  }

  /** Appending five parts in a row appends their concatenation. */
  lemma {:induction false} AppendFive<T>(s: seq<T>, a: seq<T>, b: seq<T>, c: seq<T>, d: seq<T>, e: seq<T>)
    ensures s + a + b + c + d + e == s + (a + b + c + d + e)
  {
  }

  /** Five parts in a row, regrouped as the first, the next two, and the last two. */
  lemma {:induction false} Regroup4<T>(a: seq<T>, b: seq<T>, c: seq<T>, d: seq<T>)
    ensures [] + a + b + c + d == a + (b + c) + d
  {
  }
}
