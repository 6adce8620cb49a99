/** The array helpers the engine leans on: `filter`, `find` and `slice(0, n)`,
    and what it means for one list to keep another's order. */
module Seqs {

  datatype Option<T> = None | Some(value: T)

  function Min(a: int, b: int): int {
    if a <= b then a else b
  }

  function Max(a: int, b: int): int {
    if a >= b then a else b
  }

  /** `xs` is `ys` with some entries dropped and the rest in their original order. */
  predicate IsSubsequence<T(==)>(xs: seq<T>, ys: seq<T>)
    decreases |ys|
  {
    if xs == [] then true
    else if ys == [] then false
    else if xs[0] == ys[0] then IsSubsequence(xs[1..], ys[1..])
    else IsSubsequence(xs, ys[1..])
  }

  /** `s.filter(p)`. */
  function Filter<T(==)>(s: seq<T>, p: T -> bool): (r: seq<T>)
    ensures |r| <= |s|
    ensures forall i :: 0 <= i < |r| ==> r[i] in s && p(r[i])
    ensures forall i :: 0 <= i < |s| && p(s[i]) ==> s[i] in r
  {
    if s == [] then []
    else (if p(s[0]) then [s[0]] else []) + Filter(s[1..], p)
  }

  lemma {:induction false} FilterIsSubsequence<T>(s: seq<T>, p: T -> bool)
    ensures IsSubsequence(Filter(s, p), s)
  {
    if s != [] {
      FilterIsSubsequence(s[1..], p);
      var r := Filter(s, p);
      if p(s[0]) {
        assert r[0] == s[0] && r[1..] == Filter(s[1..], p);
      } else {
        assert r == Filter(s[1..], p);
        SubsequenceOfTail(r, s);
      }
    }
  }

  lemma {:induction false} SubsequenceOfTail<T>(xs: seq<T>, ys: seq<T>)
    requires ys != [] && IsSubsequence(xs, ys[1..])
    ensures IsSubsequence(xs, ys)
    decreases |ys|, 0
  {
    if xs != [] && xs[0] == ys[0] {
      // the greedy match takes ys[0] rather than a later copy of it
      SubsequenceDropHead(xs, ys[1..]);
    }
  }

  lemma {:induction false} SubsequenceDropHead<T>(xs: seq<T>, ys: seq<T>)
    requires xs != [] && IsSubsequence(xs, ys)
    ensures IsSubsequence(xs[1..], ys)
    decreases |ys|, 1
  {
    if xs[0] != ys[0] {
      SubsequenceDropHead(xs, ys[1..]);
    }
    SubsequenceOfTail(xs[1..], ys);
  }

  /** A prefix of a subsequence is a subsequence. */
  lemma {:induction false} PrefixOfSubsequence<T>(xs: seq<T>, ys: seq<T>, n: nat)
    requires n <= |xs| && IsSubsequence(xs, ys)
    ensures IsSubsequence(xs[..n], ys)
    decreases |ys|
  {
    if n > 0 {
      assert ys != [];
      if xs[0] == ys[0] {
        PrefixOfSubsequence(xs[1..], ys[1..], n - 1);
        assert xs[..n][1..] == xs[1..][..n - 1];
      } else {
        PrefixOfSubsequence(xs, ys[1..], n);
        SubsequenceOfTail(xs[..n], ys);
      }
    }
  }

  /** Complementary filters split a list: together they keep every entry once. */
  lemma {:induction false} FilterPartition<T>(s: seq<T>, p: T -> bool, q: T -> bool)
    requires forall x :: q(x) == !p(x)
    ensures |Filter(s, p)| + |Filter(s, q)| == |s|
  {
    if s != [] {
      FilterPartition(s[1..], p, q);
    }
  }

  /** The head of a non-empty filter is the first entry that passes it. */
  lemma {:induction false} FilterHead<T>(s: seq<T>, p: T -> bool)
    requires |Filter(s, p)| > 0
    ensures exists i :: 0 <= i < |s| && p(s[i]) && Filter(s, p)[0] == s[i]
                        && forall j :: 0 <= j < i ==> !p(s[j])
  {
    if !p(s[0]) {
      FilterHead(s[1..], p);
      var i :| 0 <= i < |s[1..]| && p(s[1..][i]) && Filter(s[1..], p)[0] == s[1..][i]
               && forall j :: 0 <= j < i ==> !p(s[1..][j]);
      assert s[i + 1] == s[1..][i];
      forall j | 0 <= j < i + 1 ensures !p(s[j]) {
        if j > 0 { assert s[j] == s[1..][j - 1]; }
      }
    } else {
      assert Filter(s, p)[0] == s[0];
    }
  }

  /** A filter keeps every passing value as often as `s` holds it, and no other. */
  lemma {:induction false} FilterCounts<T>(s: seq<T>, p: T -> bool)
    ensures forall x :: multiset(Filter(s, p))[x] == if p(x) then multiset(s)[x] else 0
  {
    if s != [] {
      FilterCounts(s[1..], p);
      assert s == [s[0]] + s[1..];
      assert multiset(s) == multiset([s[0]]) + multiset(s[1..]);
    }
  }

  /** Filtering distributes over concatenation. */
  lemma {:induction false} FilterConcat<T>(a: seq<T>, b: seq<T>, p: T -> bool)
    ensures Filter(a + b, p) == Filter(a, p) + Filter(b, p)
  {
    if a != [] {
      FilterConcat(a[1..], b, p);
      assert (a + b)[1..] == a[1..] + b;
    } else {
      assert a + b == b;
    }
  }

  /** Entries put in front of two lists whose filters differ by a suffix
      leave that difference as it is. */
  lemma FilterSameFront<T>(front: seq<T>, a: seq<T>, b: seq<T>, tail: seq<T>, p: T -> bool)
    requires Filter(a, p) == Filter(b, p) + tail
    ensures Filter(front + a, p) == Filter(front + b, p) + tail
  {
    FilterConcat(front, a, p);
    FilterConcat(front, b, p);
    ConcatAssoc(Filter(front, p), Filter(b, p), tail);
  }

  lemma ConcatAssoc<T>(a: seq<T>, b: seq<T>, c: seq<T>)
    ensures a + (b + c) == (a + b) + c
  {
  }

  lemma {:induction false} FilterKeepsAll<T>(s: seq<T>, p: T -> bool)
    requires forall i :: 0 <= i < |s| ==> p(s[i])
    ensures Filter(s, p) == s
  {
    if s != [] {
      FilterKeepsAll(s[1..], p);
    }
  }

  lemma {:induction false} FilterDropsAll<T>(s: seq<T>, p: T -> bool)
    requires forall i :: 0 <= i < |s| ==> !p(s[i])
    ensures Filter(s, p) == []
  {
    if s != [] {
      FilterDropsAll(s[1..], p);
    }
  }

  /** The filter keeps `s`'s order: when the passing entry `s[k]` is none of
      the first `j + 1` kept entries, the `j`-th kept entry stands before it in `s`. */
  lemma {:induction false} FilterBefore<T>(s: seq<T>, p: T -> bool, k: nat, j: nat)
    requires k < |s| && p(s[k]) && j < |Filter(s, p)|
    requires forall i :: 0 <= i <= j ==> Filter(s, p)[i] != s[k]
    ensures exists i :: 0 <= i < k && s[i] == Filter(s, p)[j]
    decreases |s|, 1
  {
    if !p(s[0]) {
      FilterBeforeSkip(s, p, k, j);
    } else if j > 0 {
      FilterBeforeKeep(s, p, k, j);
    } else {
      assert Filter(s, p)[0] == s[0];
    }
  }

  /** `FilterBefore` when the filter drops `s[0]`. */
  lemma {:induction false} FilterBeforeSkip<T>(s: seq<T>, p: T -> bool, k: nat, j: nat)
    requires k < |s| && p(s[k]) && j < |Filter(s, p)| && !p(s[0])
    requires forall i :: 0 <= i <= j ==> Filter(s, p)[i] != s[k]
    ensures exists i :: 0 <= i < k && s[i] == Filter(s, p)[j]
    decreases |s|, 0
  {
    var t := Filter(s[1..], p);
    assert Filter(s, p) == t;
    assert k != 0;
    FilterBefore(s[1..], p, k - 1, j);
    var i :| 0 <= i < k - 1 && s[1..][i] == t[j];
    assert s[i + 1] == t[j];
  }

  /** `FilterBefore` when the filter keeps `s[0]` and `j` is past it. */
  lemma {:induction false} FilterBeforeKeep<T>(s: seq<T>, p: T -> bool, k: nat, j: nat)
    requires k < |s| && p(s[k]) && 0 < j < |Filter(s, p)| && p(s[0])
    requires forall i :: 0 <= i <= j ==> Filter(s, p)[i] != s[k]
    ensures exists i :: 0 <= i < k && s[i] == Filter(s, p)[j]
    decreases |s|, 0
  {
    var r := Filter(s, p);
    var t := Filter(s[1..], p);
    assert r == [s[0]] + t;
    assert k != 0 by { assert r[0] == s[0]; }
    forall i | 0 <= i <= j - 1 ensures t[i] != s[1..][k - 1] {
      assert t[i] == r[i + 1];
    }
    FilterBefore(s[1..], p, k - 1, j - 1);
    var i :| 0 <= i < k - 1 && s[1..][i] == t[j - 1];
    assert s[i + 1] == r[j];
  }

  /** `s.forEach(x => { if (keep(x)) out.push(f(x)) })`: the image of every
      entry that passes `keep`, in the order of `s`. */
  function FilterMap<T, U>(s: seq<T>, keep: T -> bool, f: T -> U): (r: seq<U>)
    ensures |r| <= |s|
  {
    if s == [] then []
    else FilterMap(s[..|s| - 1], keep, f) + (if keep(s[|s| - 1]) then [f(s[|s| - 1])] else [])
  }

  /** One more step of the `forEach`. */
  lemma FilterMapSnoc<T, U>(s: seq<T>, x: T, keep: T -> bool, f: T -> U)
    ensures FilterMap(s + [x], keep, f) == FilterMap(s, keep, f) + (if keep(x) then [f(x)] else [])
  {
    assert (s + [x])[..|s|] == s;
  }

  /** `x` is the image of an entry of `s` that passes `keep`. */
  ghost predicate ImageOfPassing<T, U>(x: U, s: seq<T>, keep: T -> bool, f: T -> U) {
    exists k :: 0 <= k < |s| && keep(s[k]) && x == f(s[k])
  }

  /** Every pushed value is the image of an entry that passed. */
  lemma {:induction false} FilterMapSound<T, U>(s: seq<T>, keep: T -> bool, f: T -> U)
    ensures forall i :: 0 <= i < |FilterMap(s, keep, f)| ==> ImageOfPassing(FilterMap(s, keep, f)[i], s, keep, f)
  {
    if s != [] {
      var init := s[..|s| - 1];
      var front := FilterMap(init, keep, f);
      FilterMapSound(init, keep, f);
      assert FilterMap(s, keep, f) == front + (if keep(s[|s| - 1]) then [f(s[|s| - 1])] else []);
      forall i | 0 <= i < |FilterMap(s, keep, f)|
        ensures ImageOfPassing(FilterMap(s, keep, f)[i], s, keep, f)
      {
        if i < |front| {
          assert ImageOfPassing(front[i], init, keep, f);
          var k :| 0 <= k < |init| && keep(init[k]) && front[i] == f(init[k]);
          assert init[k] == s[k];
        } else {
          assert keep(s[|s| - 1]) && FilterMap(s, keep, f)[i] == f(s[|s| - 1]);
        }
      }
    }
  }

  /** Every entry that passes has its image pushed. */
  lemma {:induction false} FilterMapComplete<T, U>(s: seq<T>, keep: T -> bool, f: T -> U)
    ensures forall k :: 0 <= k < |s| && keep(s[k]) ==> f(s[k]) in FilterMap(s, keep, f)
  {
    if s != [] {
      var init := s[..|s| - 1];
      FilterMapComplete(init, keep, f);
      forall k | 0 <= k < |s| && keep(s[k]) ensures f(s[k]) in FilterMap(s, keep, f) {
        if k < |init| {
          assert init[k] == s[k];
        }
      }
    }
  }

  /** Nothing passes: nothing is pushed. */
  lemma {:induction false} FilterMapNone<T, U>(s: seq<T>, keep: T -> bool, f: T -> U)
    requires forall k :: 0 <= k < |s| ==> !keep(s[k])
    ensures FilterMap(s, keep, f) == []
  {
    if s != [] {
      FilterMapNone(s[..|s| - 1], keep, f);
    }
  }

  /** `s.map(f)`. */
  function Map<T, U>(s: seq<T>, f: T -> U): (r: seq<U>)
    ensures |r| == |s| && forall i :: 0 <= i < |s| ==> r[i] == f(s[i])
  {
    seq(|s|, i requires 0 <= i < |s| => f(s[i]))
  }

  /** The `forEach` pushes the image of each passing entry once, in the order
      of `s`: it is `s.filter(keep).map(f)`. */
  lemma {:induction false} FilterMapIsMapOfFilter<T, U>(s: seq<T>, keep: T -> bool, f: T -> U)
    ensures FilterMap(s, keep, f) == Map(Filter(s, keep), f)
  {
    if s != [] {
      var init, x := s[..|s| - 1], s[|s| - 1];
      FilterMapIsMapOfFilter(init, keep, f);
      InitLast(s);
      FilterConcat(init, [x], keep);
      assert Filter([x], keep) == if keep(x) then [x] else [];
      MapConcat(Filter(init, keep), Filter([x], keep), f);
    }
  }

  lemma MapConcat<T, U>(a: seq<T>, b: seq<T>, f: T -> U)
    ensures Map(a + b, f) == Map(a, f) + Map(b, f)
  {
  }

  /** A non-empty sequence is its first element followed by the rest. */
  lemma FirstRest<T>(s: seq<T>)
    requires s != []
    ensures [s[0]] + s[1..] == s
  {
  }

  /** A non-empty sequence is its front followed by its last element. */
  lemma InitLast<T>(s: seq<T>)
    requires s != []
    ensures s[..|s| - 1] + [s[|s| - 1]] == s
  {
  }

  /** `s.slice(0, n)`. */
  function Prefix<T>(s: seq<T>, n: nat): (r: seq<T>)
    ensures |r| == Min(n, |s|) && r <= s
  {
    if |s| <= n then s else s[..n]
  }

  /** `s.find(p)`: the first entry that satisfies `p`, if any. */
  function Find<T>(s: seq<T>, p: T -> bool): (r: Option<T>)
    ensures r.None? <==> forall i :: 0 <= i < |s| ==> !p(s[i])
    ensures r.Some? ==> exists i :: 0 <= i < |s| && s[i] == r.value && p(s[i])
                                    && forall j :: 0 <= j < i ==> !p(s[j])
  {
    FindFrom(s, p, 0)
  }

  function FindFrom<T>(s: seq<T>, p: T -> bool, from: nat): (r: Option<T>)
    requires from <= |s|
    ensures r.None? <==> forall i :: from <= i < |s| ==> !p(s[i])
    ensures r.Some? ==> exists i :: from <= i < |s| && s[i] == r.value && p(s[i])
                                    && forall j :: from <= j < i ==> !p(s[j])
    decreases |s| - from
  {
    if from == |s| then None
    else if p(s[from]) then Some(s[from])
    else FindFrom(s, p, from + 1)
  }
}
