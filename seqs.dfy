/** Sequence operations shared by both models: the `filter`, `reduce`, `find`,
    `map` and `new Set(...)` idioms of JavaScript arrays, with their defining
    properties. */
module Seqs {

  datatype Option<+T> = None | Some(value: T)

  /** `r` can be obtained from `s` by deleting elements, keeping the order. */
  ghost predicate IsSubsequence<T(!new)>(r: seq<T>, s: seq<T>)
    decreases |s|
  {
    r == [] ||
    (s != [] &&
     ((r[0] == s[0] && IsSubsequence(r[1..], s[1..])) || IsSubsequence(r, s[1..])))
  }

  /** The negation of a predicate, as a closure. */
  function Not<T(!new)>(p: T -> bool): (q: T -> bool)
    ensures forall x :: q(x) == !p(x)
  {
    x => !p(x)
  }

  /** `Array.prototype.filter`: the elements that satisfy `p`, in order. */
  function Filter<T(!new)>(s: seq<T>, p: T -> bool): (r: seq<T>)
    ensures |r| <= |s|
    ensures forall x :: x in r <==> x in s && p(x)
  {
    if s == [] then []
    else
      var rest := Filter(s[1..], p);
      assert s == [s[0]] + s[1..];
      if p(s[0]) then [s[0]] + rest else rest
  }

  /** The filter keeps the order of the elements it keeps. */
  lemma {:induction false} FilterIsSubsequence<T(!new)>(s: seq<T>, p: T -> bool)
    ensures IsSubsequence(Filter(s, p), s)
    decreases |s|
  {
    if s != [] {
      FilterIsSubsequence(s[1..], p);
      var r := Filter(s, p);
      if p(s[0]) {
        assert r[0] == s[0] && r[1..] == Filter(s[1..], p);
      }
    }
  }

  /** The filter keeps every occurrence of a qualifying element and none of the others. */
  lemma {:induction false} FilterCount<T(!new)>(s: seq<T>, p: T -> bool, x: T)
    ensures multiset(Filter(s, p))[x] == if p(x) then multiset(s)[x] else 0
    decreases |s|
  {
    if s != [] {
      FilterCount(s[1..], p, x);
      assert s == [s[0]] + s[1..];
      assert multiset(s) == multiset{s[0]} + multiset(s[1..]);
      if p(s[0]) {
        assert multiset(Filter(s, p)) == multiset{s[0]} + multiset(Filter(s[1..], p));
      }
    }
  }

  /** `r` holds exactly the elements of `s` that satisfy `p`, each as often
      as in `s`, in the order of `s`. */
  ghost predicate SelectsExactly<T(!new)>(r: seq<T>, s: seq<T>, p: T -> bool)
  {
    (forall x :: x in r <==> x in s && p(x)) &&
    (forall x :: multiset(r)[x] == if p(x) then multiset(s)[x] else 0) &&
    IsSubsequence(r, s)
  }

  lemma FilterSelectsExactly<T(!new)>(s: seq<T>, p: T -> bool)
    ensures SelectsExactly(Filter(s, p), s, p)
  {
    FilterIsSubsequence(s, p);
    forall x ensures multiset(Filter(s, p))[x] == if p(x) then multiset(s)[x] else 0 {
      FilterCount(s, p, x);
    }
  }

  lemma {:induction false} FilterAppend<T(!new)>(a: seq<T>, b: seq<T>, p: T -> bool)
    ensures Filter(a + b, p) == Filter(a, p) + Filter(b, p)
    decreases |a|
  {
    if a == [] {
      assert a + b == b;
    } else {
      var c := a + b;
      assert c[0] == a[0] && c[1..] == a[1..] + b;
      FilterAppend(a[1..], b, p);
      if p(a[0]) {
        calc {
          Filter(c, p);
          [a[0]] + Filter(a[1..] + b, p);
          [a[0]] + (Filter(a[1..], p) + Filter(b, p));
          ([a[0]] + Filter(a[1..], p)) + Filter(b, p);
        }
      }
    }
  }

  /** Filtering by two predicates that agree on every element gives the same result. */
  lemma {:induction false} FilterAgree<T(!new)>(s: seq<T>, p: T -> bool, q: T -> bool)
    requires forall i :: 0 <= i < |s| ==> p(s[i]) == q(s[i])
    ensures Filter(s, p) == Filter(s, q)
    decreases |s|
  {
    if s != [] {
      FilterAgree(s[1..], p, q);
    }
  }

  /** Filtering keeps everything when every element qualifies. */
  lemma {:induction false} FilterKeepsAll<T(!new)>(s: seq<T>, p: T -> bool)
    requires forall i :: 0 <= i < |s| ==> p(s[i])
    ensures Filter(s, p) == s
    decreases |s|
  {
    if s != [] {
      FilterKeepsAll(s[1..], p);
      assert s == [s[0]] + s[1..];
    }
  }

  /** Every element lands on exactly one side of a predicate. */
  lemma {:induction false} FilterPartitionLength<T(!new)>(s: seq<T>, p: T -> bool)
    ensures |Filter(s, p)| + |Filter(s, Not(p))| == |s|
    decreases |s|
  {
    if s != [] {
      FilterPartitionLength(s[1..], p);
    }
  }

  /** `Array.prototype.reduce((acc, x) => acc + f(x), 0)`: a left fold. */
  function SumOf<T(!new)>(s: seq<T>, f: T -> real): (r: real)
    ensures (forall i :: 0 <= i < |s| ==> f(s[i]) >= 0.0) ==> r >= 0.0
  {
    if s == [] then 0.0 else SumOf(s[..|s| - 1], f) + f(s[|s| - 1])
  }

  lemma {:induction false} SumOfAppend<T(!new)>(a: seq<T>, b: seq<T>, f: T -> real)
    ensures SumOf(a + b, f) == SumOf(a, f) + SumOf(b, f)
    decreases |b|
  {
    if b == [] {
      assert a + b == a;
    } else {
      var c, b' := a + b, b[..|b| - 1];
      assert c[..|c| - 1] == a + b';
      assert c[|c| - 1] == b[|b| - 1];
      SumOfAppend(a, b', f);
      calc {
        SumOf(c, f);
        SumOf(a + b', f) + f(b[|b| - 1]);
        SumOf(a, f) + SumOf(b', f) + f(b[|b| - 1]);
        SumOf(a, f) + SumOf(b, f);
      }
    }
  }

  /** The sum over a sequence is the sum over the elements satisfying `p`
      plus the sum over the others. */
  lemma {:induction false} SumOfPartition<T(!new)>(s: seq<T>, p: T -> bool, f: T -> real)
    ensures SumOf(s, f) == SumOf(Filter(s, p), f) + SumOf(Filter(s, Not(p)), f)
    decreases |s|
  {
    if s != [] {
      var x, t := s[0], s[1..];
      assert s == [x] + t;
      SumOfPartition(t, p, f);
      SumOfAppend([x], t, f);
      assert SumOf([x], f) == f(x) by {
        assert [x][..0] == [];
      }
      if p(x) {
        SumOfAppend([x], Filter(t, p), f);
      } else {
        SumOfAppend([x], Filter(t, Not(p)), f);
      }
    }
  }

  /** The sum over the elements satisfying `p` never exceeds the whole sum
      when no term is negative. */
  lemma SumOfFilterAtMost<T(!new)>(s: seq<T>, p: T -> bool, f: T -> real)
    requires forall i :: 0 <= i < |s| ==> f(s[i]) >= 0.0
    ensures 0.0 <= SumOf(Filter(s, p), f) <= SumOf(s, f)
  {
    SumOfPartition(s, p, f);
    var kept, rest := Filter(s, p), Filter(s, Not(p));
    forall i | 0 <= i < |kept| ensures f(kept[i]) >= 0.0 {
      assert kept[i] in s;
    }
    forall i | 0 <= i < |rest| ensures f(rest[i]) >= 0.0 {
      assert rest[i] in s;
    }
  }

  /** `Array.prototype.findIndex`: the first position whose element satisfies `p`. */
  function FindIndex<T(!new)>(s: seq<T>, p: T -> bool): (r: Option<nat>)
    ensures r.Some? ==> r.value < |s| && p(s[r.value]) &&
                        forall j :: 0 <= j < r.value ==> !p(s[j])
    ensures r.None? ==> forall j :: 0 <= j < |s| ==> !p(s[j])
  {
    if s == [] then None
    else if p(s[0]) then Some(0)
    else match FindIndex(s[1..], p)
      case None => None
      case Some(i) => Some(i + 1)
  }

  /** `Array.prototype.find`: the first element satisfying `p`, if any. */
  function Find<T(!new)>(s: seq<T>, p: T -> bool): (r: Option<T>)
    ensures r.None? <==> forall j :: 0 <= j < |s| ==> !p(s[j])
    ensures r.Some? ==> exists i :: 0 <= i < |s| && s[i] == r.value && p(s[i]) &&
                                    forall j :: 0 <= j < i ==> !p(s[j])
  {
    match FindIndex(s, p)
    case None => None
    case Some(i) => Some(s[i])
  }

  /** `Array.prototype.map`. */
  function MapSeq<T(!new), U>(s: seq<T>, f: T -> U): (r: seq<U>)
    ensures |r| == |s| && forall i :: 0 <= i < |s| ==> r[i] == f(s[i])
  {
    seq(|s|, i requires 0 <= i < |s| => f(s[i]))
  }

  /** The position of the first occurrence of `x` in `s`. */
  function FirstIndex<T(==,!new)>(s: seq<T>, x: T): (i: nat)
    requires x in s
    ensures i < |s| && s[i] == x && forall j :: 0 <= j < i ==> s[j] != x
  {
    if s[0] == x then 0 else 1 + FirstIndex(s[1..], x)
  }

  /** `[...new Set(s)]`: the elements of `s` without repetition. A Set iterates
      in insertion order, so the survivor of each value is its first occurrence. */
  function Distinct<T(==,!new)>(s: seq<T>): (r: seq<T>)
    ensures forall x :: x in r <==> x in s
    ensures forall i, j :: 0 <= i < j < |r| ==> r[i] != r[j]
  {
    if s == [] then []
    else
      var d := Distinct(s[..|s| - 1]);
      var y := s[|s| - 1];
      assert s == s[..|s| - 1] + [y];
      if y in d then d else d + [y]
  }

  /** Appending an element does not move the first occurrence of a value
      that is already present. */
  lemma FirstIndexOfPrefix<T(!new)>(s: seq<T>, y: T, x: T)
    requires x in s
    ensures FirstIndex(s + [y], x) == FirstIndex(s, x)
  {
    var i, k := FirstIndex(s, x), FirstIndex(s + [y], x);
    assert (s + [y])[i] == x;
    assert k <= i;
    assert s[k] == (s + [y])[k];
  }

  /** The values of `Distinct(s)` are listed in the order of their first
      occurrence in `s`. */
  lemma {:induction false} DistinctFirstSeenOrder<T(!new)>(s: seq<T>)
    ensures forall i, j :: 0 <= i < j < |Distinct(s)| ==>
              FirstIndex(s, Distinct(s)[i]) < FirstIndex(s, Distinct(s)[j])
    decreases |s|
  {
    if s != [] {
      var p, y := s[..|s| - 1], s[|s| - 1];
      assert s == p + [y];
      var d := Distinct(p);
      DistinctFirstSeenOrder(p);
      forall x | x in d ensures FirstIndex(s, x) == FirstIndex(p, x) < |p| {
        FirstIndexOfPrefix(p, y, x);
      }
      if y !in d {
        assert FirstIndex(s, y) == |p| by {
          assert s[|p|] == y;
          assert forall j :: 0 <= j < |p| ==> s[j] == p[j] != y;
        }
        var r := d + [y];
        forall i, j | 0 <= i < j < |r|
          ensures FirstIndex(s, r[i]) < FirstIndex(s, r[j])
        {
          assert r[i] in d;
        }
      }
    }
  }
}
