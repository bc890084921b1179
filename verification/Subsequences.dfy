/** Order-preserving embeddings of one sequence into another. */
module Subsequences {

  /** Position k of a is found at position at[k] of b, and the positions strictly increase. */
  ghost predicate EmbedsAt<T>(a: seq<T>, b: seq<T>, at: seq<nat>) {
    && |at| == |a|
    && (forall k :: 0 <= k < |at| ==> at[k] < |b| && a[k] == b[at[k]])
    && (forall j, k :: 0 <= j < k < |at| ==> at[j] < at[k])
  }

  /** a can be obtained from b by leaving out elements: none is changed, moved or repeated. */
  ghost predicate Subsequence<T>(a: seq<T>, b: seq<T>) {
    exists at :: EmbedsAt(a, b, at)
  }

  lemma {:induction false} SubsequenceOfItself<T>(a: seq<T>)
    ensures Subsequence(a, a)
  {
    assert EmbedsAt(a, a, seq(|a|, i => i));
  }

  lemma {:induction false} SuffixIsSubsequence<T>(b: seq<T>, n: nat)
    requires n <= |b|
    ensures Subsequence(b[n..], b)
  {
    assert EmbedsAt(b[n..], b, seq(|b| - n, i => n + i));
  }

  lemma {:induction false} PrefixIsSubsequence<T>(b: seq<T>, n: nat)
    requires n <= |b|
    ensures Subsequence(b[..n], b)
  {
    assert EmbedsAt(b[..n], b, seq(n, i => i));
  }

  lemma {:induction false} SubsequenceTransitive<T>(a: seq<T>, b: seq<T>, c: seq<T>)
    requires Subsequence(a, b) && Subsequence(b, c)
    ensures Subsequence(a, c)
  {
    var ab :| EmbedsAt(a, b, ab);
    var bc :| EmbedsAt(b, c, bc);
    assert EmbedsAt(a, c, seq(|a|, i requires 0 <= i < |a| => bc[ab[i]]));
  }

  lemma {:induction false} SubsequenceConcat<T>(a: seq<T>, b: seq<T>, c: seq<T>, d: seq<T>)
    requires Subsequence(a, b) && Subsequence(c, d)
    ensures Subsequence(a + c, b + d)
  {
    var ab :| EmbedsAt(a, b, ab);
    var cd :| EmbedsAt(c, d, cd);
    var at := ab + seq(|c|, i requires 0 <= i < |c| => |b| + cd[i]);
    assert EmbedsAt(a + c, b + d, at);
  }

  lemma {:induction false} SubsequenceBehind<T>(front: seq<T>, a: seq<T>, b: seq<T>, t: T)
    requires Subsequence(a, b + [t])
    ensures Subsequence(front + a, front + b + [t])
  {
    SubsequenceOfItself(front);
    SubsequenceConcat(front, front, a, b + [t]);
    assert front + (b + [t]) == front + b + [t];
  }
}
