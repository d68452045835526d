/** Order-preserving filters over sequences: the model of `Array.prototype.filter`,
    which every cleanup step of the game loop uses. */
module Seqs {

  /** `r` can be obtained from `s` by deleting elements, without reordering the
      ones that remain. */
  ghost predicate Embeds<T>(r: seq<T>, s: seq<T>)
    decreases |s|
  {
    |r| == 0 || (|s| > 0 && ((r[0] == s[0] && Embeds(r[1..], s[1..])) || Embeds(r, s[1..])))
  }

  /** The elements of `s` on which `keep` holds, in their original order. */
  function Filter<T>(s: seq<T>, keep: T -> bool): (r: seq<T>)
    ensures |r| <= |s|
    ensures forall i :: 0 <= i < |r| ==> r[i] in s && keep(r[i])
    ensures forall i :: 0 <= i < |s| && keep(s[i]) ==> s[i] in r
    ensures Embeds(r, s)
  {
    if |s| == 0 then []
    else if keep(s[0]) then [s[0]] + Filter(s[1..], keep)
    else Filter(s[1..], keep)
  }

  /** The filter keeps every copy of a kept value and no copy of any other:
      duplicates are neither merged nor invented. */
  lemma {:induction false} FilterCounts<T>(s: seq<T>, keep: T -> bool)
    ensures forall x :: multiset(Filter(s, keep))[x] == if keep(x) then multiset(s)[x] else 0
  {
    if |s| > 0 {
      FilterCounts(s[1..], keep);
      assert s == [s[0]] + s[1..];
      assert multiset(s) == multiset{s[0]} + multiset(s[1..]);
      if keep(s[0]) {
        assert multiset(Filter(s, keep)) == multiset{s[0]} + multiset(Filter(s[1..], keep));
      }
    }
  }

  /** A pairwise property of a sequence (an ordering, say) survives any filter. */
  lemma {:induction false} FilterKeepsPairwise<T>(s: seq<T>, keep: T -> bool, before: (T, T) -> bool)
    requires forall i, j :: 0 <= i < j < |s| ==> before(s[i], s[j])
    ensures forall i, j :: 0 <= i < j < |Filter(s, keep)| ==> before(Filter(s, keep)[i], Filter(s, keep)[j])
  {
    if |s| > 0 {
      var tail := s[1..];
      var rest := Filter(tail, keep);
      assert forall i, j :: 0 <= i < j < |tail| ==> before(tail[i], tail[j]) by {
        forall i, j | 0 <= i < j < |tail| ensures before(tail[i], tail[j]) {
          assert tail[i] == s[i + 1] && tail[j] == s[j + 1];
        }
      }
      FilterKeepsPairwise(tail, keep, before);
      assert forall i, j :: 0 <= i < j < |rest| ==> before(rest[i], rest[j]);
      if keep(s[0]) {
        forall k | 0 <= k < |rest| ensures before(s[0], rest[k]) {
          HeadBeforeMember(s, rest[k], before);
        }
        var r := [s[0]] + rest;
        assert Filter(s, keep) == r;
        forall i, j | 0 <= i < j < |r|
          ensures before(r[i], r[j])
        {
          if i == 0 {
            assert r[j] == rest[j - 1];
          } else {
            assert r[i] == rest[i - 1] && r[j] == rest[j - 1];
          }
        }
      } else {
        assert Filter(s, keep) == rest;
      }
    }
  }

  lemma HeadBeforeMember<T>(s: seq<T>, x: T, before: (T, T) -> bool)
    requires |s| > 0 && x in s[1..]
    requires forall i, j :: 0 <= i < j < |s| ==> before(s[i], s[j])
    ensures before(s[0], x)
  {
    var k :| 0 <= k < |s[1..]| && s[1..][k] == x;
    assert s[k + 1] == x;
  }

  /** A prefix of a prefix is a prefix. */
  lemma PrefixOfPrefix<T>(a: seq<T>, b: seq<T>, c: seq<T>)
    requires |a| <= |b| <= |c| && b[..|a|] == a && c[..|b|] == b
    ensures c[..|a|] == a
  {
    assert c[..|b|][..|a|] == c[..|a|];
  }

  /** One step of a left-to-right map: if `mid` extends `prefix` by the image
      of `xs[0]`, and `r` extends `mid` by the images of the rest of `xs`, then
      `r` extends `prefix` by the images of all of `xs`. */
  lemma MapStep<T, U>(prefix: seq<U>, xs: seq<T>, f: T -> U, mid: seq<U>, r: seq<U>)
    requires |xs| > 0 && mid == prefix + [f(xs[0])]
    requires |r| == |mid| + |xs| - 1 && r[..|mid|] == mid
    requires forall i :: 0 <= i < |xs| - 1 ==> r[|mid| + i] == f(xs[1..][i])
    ensures |r| == |prefix| + |xs| && r[..|prefix|] == prefix
    ensures forall i :: 0 <= i < |xs| ==> r[|prefix| + i] == f(xs[i])
  {
    PrefixOfPrefix(prefix, mid, r);
    forall i | 0 <= i < |xs| ensures r[|prefix| + i] == f(xs[i]) {
      if i == 0 {
        assert r[|prefix|] == r[..|mid|][|prefix|];
      } else {
        assert xs[1..][i - 1] == xs[i];
        assert r[|mid| + (i - 1)] == f(xs[1..][i - 1]);
      }
    }
  }
}
