/** Order-preserving subsequences, and filters as the source of them. */
module Subsequence {

  /** Strictly increasing positions at which `b` holds the elements of `a`. */
  predicate Embeds<T(==)>(a: seq<T>, b: seq<T>, at: seq<nat>) {
    && |at| == |a|
    && (forall i :: 0 <= i < |a| ==> at[i] < |b| && b[at[i]] == a[i])
    && (forall i, j :: 0 <= i < j < |a| ==> at[i] < at[j])
  }

  ghost predicate IsSubsequence<T>(a: seq<T>, b: seq<T>) {
    exists at :: Embeds(a, b, at)
  }

  function Shifted(at: seq<nat>, d: nat): (r: seq<nat>)
    ensures |r| == |at| && forall i :: 0 <= i < |at| ==> r[i] == at[i] + d
  {
    seq(|at|, i requires 0 <= i < |at| => at[i] + d)
  }

  lemma EmbedSkip<T>(a: seq<T>, b: seq<T>, at: seq<nat>, head: T)
    requires Embeds(a, b, at)
    ensures Embeds(a, [head] + b, Shifted(at, 1))
  {
    forall i | 0 <= i < |a| ensures ([head] + b)[Shifted(at, 1)[i]] == a[i] {
      assert ([head] + b)[at[i] + 1] == b[at[i]];
    }
  }

  lemma EmbedTake<T>(a: seq<T>, b: seq<T>, at: seq<nat>, head: T)
    requires Embeds(a, b, at)
    ensures Embeds([head] + a, [head] + b, [0] + Shifted(at, 1))
  {
    var r := [0] + Shifted(at, 1);
    forall i | 0 <= i < |a| + 1 ensures r[i] < |b| + 1 && ([head] + b)[r[i]] == ([head] + a)[i] {
      if i > 0 {
        assert r[i] == at[i - 1] + 1 && ([head] + b)[at[i - 1] + 1] == b[at[i - 1]];
      }
    }
    forall i, j | 0 <= i < j < |a| + 1 ensures r[i] < r[j] {
      assert r[j] == at[j - 1] + 1;
      if i > 0 {
        assert r[i] == at[i - 1] + 1;
      }
    }
  }

  lemma SubsequenceSkip<T>(a: seq<T>, b: seq<T>, head: T)
    requires IsSubsequence(a, b)
    ensures IsSubsequence(a, [head] + b)
  {
    var at :| Embeds(a, b, at);
    EmbedSkip(a, b, at, head);
  }

  lemma SubsequenceTake<T>(a: seq<T>, b: seq<T>, head: T)
    requires IsSubsequence(a, b)
    ensures IsSubsequence([head] + a, [head] + b)
  {
    var at :| Embeds(a, b, at);
    EmbedTake(a, b, at, head);
  }

  lemma EmptyIsSubsequence<T>(b: seq<T>)
    ensures IsSubsequence([], b)
  {
    assert Embeds([], b, []);
  }

  function Filter<T>(s: seq<T>, keep: T -> bool): seq<T> {
    if s == [] then [] else (if keep(s[0]) then [s[0]] else []) + Filter(s[1..], keep)
  }

  lemma {:induction false} FilterSnoc<T>(s: seq<T>, x: T, keep: T -> bool)
    ensures Filter(s + [x], keep) == Filter(s, keep) + if keep(x) then [x] else []
  {
    if s == [] {
      assert [] + [x] == [x] && [x][1..] == [];
    } else {
      assert (s + [x])[1..] == s[1..] + [x];
      FilterSnoc(s[1..], x, keep);
      var h, f, t := if keep(s[0]) then [s[0]] else [], Filter(s[1..], keep), if keep(x) then [x] else [];
      assert h + (f + t) == (h + f) + t;
    }
  }

  /** A stricter filter keeps a subsequence of what a laxer one keeps. */
  lemma {:induction false} FilterIsMonotone<T>(s: seq<T>, strict: T -> bool, lax: T -> bool)
    requires forall x :: x in s && strict(x) ==> lax(x)
    ensures IsSubsequence(Filter(s, strict), Filter(s, lax))
  {
    if s == [] {
      EmptyIsSubsequence<T>([]);
    } else {
      var a, b := Filter(s[1..], strict), Filter(s[1..], lax);
      FilterIsMonotone(s[1..], strict, lax);
      if strict(s[0]) {
        SubsequenceTake(a, b, s[0]);
      } else if lax(s[0]) {
        SubsequenceSkip(a, b, s[0]);
        assert [] + a == a;
      } else {
        assert [] + a == a && [] + b == b;
      }
    }
  }

  lemma {:induction false} FilterAll<T>(s: seq<T>, keep: T -> bool)
    requires forall x :: x in s ==> keep(x)
    ensures Filter(s, keep) == s
  {
    if s != [] {
      FilterAll(s[1..], keep);
    }
  }
}
