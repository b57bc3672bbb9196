/** Subsequences: nothing lost and nothing reordered, but repeats allowed. */
module Subsequences {

  /** Entry i of `a` sits at position at[i] of `b`, and the positions increase. */
  ghost predicate Embeds<T>(a: seq<T>, b: seq<T>, at: seq<nat>) {
    && |at| == |a|
    && (forall i :: 0 <= i < |a| ==> at[i] < |b| && b[at[i]] == a[i])
    && (forall i, j :: 0 <= i < j < |at| ==> at[i] < at[j])
  }

  ghost predicate Subsequence<T>(a: seq<T>, b: seq<T>) {
    exists at :: Embeds(a, b, at)
  }

  lemma Reflexive<T>(a: seq<T>)
    ensures Subsequence(a, a)
  {
    assert Embeds(a, a, seq(|a|, i requires 0 <= i < |a| => i));
  }

  lemma Transitive<T>(a: seq<T>, b: seq<T>, c: seq<T>)
    requires Subsequence(a, b) && Subsequence(b, c)
    ensures Subsequence(a, c)
  {
    var f :| Embeds(a, b, f);
    var g :| Embeds(b, c, g);
    assert Embeds(a, c, seq(|a|, i requires 0 <= i < |a| => g[f[i]]));
  }

  lemma Concat<T>(a: seq<T>, b: seq<T>, c: seq<T>, d: seq<T>)
    requires Subsequence(a, b) && Subsequence(c, d)
    ensures Subsequence(a + c, b + d)
  {
    var f :| Embeds(a, b, f);
    var g :| Embeds(c, d, g);
    var at := f + seq(|c|, i requires 0 <= i < |c| => |b| + g[i]);
    forall i | 0 <= i < |a + c|
      ensures at[i] < |b + d| && (b + d)[at[i]] == (a + c)[i]
    {
    }
    assert Embeds(a + c, b + d, at);
  }

  lemma AfterPrefix<T>(prefix: seq<T>, a: seq<T>, b: seq<T>)
    requires Subsequence(a, b)
    ensures Subsequence(a, prefix + b)
  {
    assert Embeds([], prefix, []);
    Concat([], prefix, a, b);
    assert [] + a == a;
  }

  lemma BeforeSuffix<T>(a: seq<T>, b: seq<T>, suffix: seq<T>)
    requires Subsequence(a, b)
    ensures Subsequence(a, b + suffix)
  {
    assert Embeds([], suffix, []);
    Concat(a, b, [], suffix);
    assert a + [] == a;
  }
}
