/** Facts about sequences the views and layer lists rely on: duplicate-free
    lists, entrywise maps, subsequences, and moving an element to the end. */
module Sequences {

  /** No element occurs twice. */
  ghost predicate Distinct<T>(s: seq<T>)
  {
    forall i, j :: 0 <= i < j < |s| ==> s[i] != s[j]
  }

  /** Distinctness is a property of the multiset: no element counts twice. */
  lemma {:induction false} DistinctCount<T>(s: seq<T>)
    ensures Distinct(s) <==> forall x :: multiset(s)[x] <= 1
  {
    if Distinct(s) {
      forall x ensures multiset(s)[x] <= 1 {
        DistinctCountOne(s, x);
      }
    }
    if !Distinct(s) {
      var i, j :| 0 <= i < j < |s| && s[i] == s[j];
      assert s == s[..j] + s[j..];
      assert s[i] == s[..j][i];
      assert s[j] == s[j..][0];
      assert multiset(s) == multiset(s[..j]) + multiset(s[j..]);
      assert multiset(s[..j])[s[i]] >= 1 && multiset(s[j..])[s[i]] >= 1;
      assert multiset(s)[s[i]] >= 2;
    }
  }

  lemma {:induction false} DistinctCountOne<T>(s: seq<T>, x: T)
    requires Distinct(s)
    ensures multiset(s)[x] <= 1
  {
    if s != [] {
      assert s == [s[0]] + s[1..];
      assert Distinct(s[1..]) by {
        forall i, j | 0 <= i < j < |s[1..]| ensures s[1..][i] != s[1..][j] {
          assert s[1..][i] == s[i + 1] && s[1..][j] == s[j + 1];
        }
      }
      DistinctCountOne(s[1..], x);
      if s[0] == x {
        forall k | 0 <= k < |s[1..]| ensures s[1..][k] != x {
          assert s[1..][k] == s[k + 1];
        }
      }
    }
  }

  /** A rearrangement of a duplicate-free list is duplicate-free. */
  lemma DistinctPermutation<T>(a: seq<T>, b: seq<T>)
    requires Distinct(a) && multiset(a) == multiset(b)
    ensures Distinct(b)
  {
    DistinctCount(a);
    DistinctCount(b);
  }

  /** Appending an element that is not yet there keeps a list duplicate-free. */
  lemma DistinctAppend<T>(s: seq<T>, x: T)
    requires Distinct(s) && x !in s
    ensures Distinct(s + [x])
  {
    var r := s + [x];
    forall i, j | 0 <= i < j < |r| ensures r[i] != r[j] {
      if j == |s| {
        assert r[i] == s[i];
      } else {
        assert r[i] == s[i] && r[j] == s[j];
      }
    }
  }

  /** How often `x` occurs in `s`. */
  function Count<T(==)>(s: seq<T>, x: T): (n: nat)
    ensures n <= |s|
  {
    if s == [] then 0 else (if s[0] == x then 1 else 0) + Count(s[1..], x)
  }

  /** `a` is a rearrangement of `b`: every element occurs equally often. */
  ghost predicate SameElements<T>(a: seq<T>, b: seq<T>)
  {
    && (forall x :: x in a ==> Count(a, x) == Count(b, x))
    && (forall x :: x in b ==> Count(a, x) == Count(b, x))
  }

  lemma {:induction false} CountMultiplicity<T>(s: seq<T>, x: T)
    ensures Count(s, x) == multiset(s)[x]
  {
    if s != [] {
      CountMultiplicity(s[1..], x);
      assert s == [s[0]] + s[1..];
    }
  }

  /** Counting agrees with the multiset of the sequence. */
  lemma SameElementsMultiset<T>(a: seq<T>, b: seq<T>)
    ensures SameElements(a, b) <==> multiset(a) == multiset(b)
  {
    forall x ensures Count(a, x) == multiset(a)[x] && Count(b, x) == multiset(b)[x] {
      CountMultiplicity(a, x);
      CountMultiplicity(b, x);
    }
    if SameElements(a, b) {
      forall x ensures multiset(a)[x] == multiset(b)[x] {
        if x !in a && x !in b {
          assert multiset(a)[x] == 0 == multiset(b)[x];
        }
      }
    }
  }

  lemma {:induction false} CountAbsent<T>(s: seq<T>, x: T)
    requires x !in s
    ensures Count(s, x) == 0
  {
    if s != [] {
      assert s == [s[0]] + s[1..];
      CountAbsent(s[1..], x);
    }
  }

  lemma {:induction false} CountAppend<T>(s: seq<T>, y: T, x: T)
    ensures Count(s + [y], x) == Count(s, x) + (if x == y then 1 else 0)
  {
    if s == [] {
      assert [y][1..] == [];
    } else {
      assert (s + [y])[1..] == s[1..] + [y];
      CountAppend(s[1..], y, x);
    }
  }

  /** Appending one element on both sides keeps a rearrangement. */
  lemma SameElementsAppend<T>(a: seq<T>, b: seq<T>, x: T)
    requires SameElements(a, b)
    ensures SameElements(a + [x], b + [x])
  {
    forall y | y in a + [x] || y in b + [x] ensures Count(a + [x], y) == Count(b + [x], y) {
      CountAppend(a, x, y);
      CountAppend(b, x, y);
      if y !in a && y !in b {
        CountAbsent(a, y);
        CountAbsent(b, y);
      }
    }
  }

  /** `f` applied to every entry. */
  function Map<T, U>(s: seq<T>, f: T -> U): (r: seq<U>)
    ensures |r| == |s|
    ensures forall q :: 0 <= q < |s| ==> r[q] == f(s[q])
  {
    if s == [] then [] else [f(s[0])] + Map(s[1..], f)
  }

  /** Mapping commutes with rearranging. */
  lemma {:induction false} MapMultiset<T, U>(a: seq<T>, b: seq<T>, f: T -> U)
    requires multiset(a) == multiset(b)
    ensures multiset(Map(a, f)) == multiset(Map(b, f))
    decreases |a|
  {
    if a == [] {
      assert |multiset(b)| == 0;
      assert b == [];
    } else {
      var x := a[0];
      assert a == [x] + a[1..];
      assert x in multiset(b);
      assert multiset(a[1..]) == multiset(a) - multiset{x};
      MapMultiset(a[1..], Remove(b, x), f);
      MapRemove(b, x, f);
      assert Map(a, f) == [f(x)] + Map(a[1..], f);
    }
  }

  lemma {:induction false} MapRemove<T, U>(s: seq<T>, x: T, f: T -> U)
    requires x in s
    ensures multiset(Map(s, f)) == multiset(Map(Remove(s, x), f)) + multiset{f(x)}
  {
    assert s == [s[0]] + s[1..];
    assert Map(s, f) == [f(s[0])] + Map(s[1..], f);
    if s[0] != x {
      MapRemove(s[1..], x, f);
      assert Map(Remove(s, x), f) == [f(s[0])] + Map(Remove(s[1..], x), f);
    }
  }

  lemma MapAppend<T, U>(s: seq<T>, x: T, f: T -> U)
    ensures Map(s + [x], f) == Map(s, f) + [f(x)]
  {
  }

  /** Mapping distributes over concatenation. */
  lemma MapConcat<T, U>(a: seq<T>, b: seq<T>, f: T -> U)
    ensures Map(a + b, f) == Map(a, f) + Map(b, f)
  {
    var l := Map(a + b, f);
    var r := Map(a, f) + Map(b, f);
    assert |l| == |r|;
    forall q | 0 <= q < |l| ensures l[q] == r[q] {
      if q < |a| {
        assert (a + b)[q] == a[q];
      } else {
        assert (a + b)[q] == b[q - |a|];
      }
    }
  }

  /** `s` without the first occurrence of `x`. */
  function Remove<T(==)>(s: seq<T>, x: T): (r: seq<T>)
    ensures x in s ==> multiset(r) == multiset(s) - multiset{x} && |r| == |s| - 1
    ensures x !in s ==> r == s
  {
    if s == [] then []
    else
      assert s == [s[0]] + s[1..];
      if s[0] == x then s[1..] else [s[0]] + Remove(s[1..], x)
  }

  /** Removing an element found in the front part leaves the back part. */
  lemma {:induction false} RemoveInFront<T>(a: seq<T>, b: seq<T>, x: T)
    requires x in a
    ensures Remove(a + b, x) == Remove(a, x) + b
  {
    if a[0] == x {
      assert (a + b)[1..] == a[1..] + b;
    } else {
      assert (a + b)[1..] == a[1..] + b;
      RemoveInFront(a[1..], b, x);
    }
  }

  /** Leaflet's `bringToFront`: the layer moves to the end of the paint order. */
  function BringToFront<T(==)>(s: seq<T>, x: T): (r: seq<T>)
    ensures x in s ==> multiset(r) == multiset(s)
    ensures |r| > 0 && r[|r| - 1] == x
  {
    Remove(s, x) + [x]
  }

  lemma AppendAssoc<T>(a: seq<T>, b: seq<T>, c: seq<T>)
    ensures a + (b + c) == (a + b) + c
  {
  }

  lemma TakeOneMore<T>(s: seq<T>, i: int)
    requires 0 <= i < |s|
    ensures s[..i + 1] == s[..i] + [s[i]]
  {
  }

  /** Bringing to the front an element of the front part `a` keeps the
      back part `b` in place behind what is left of `a`. */
  lemma BringToFrontBack<T>(a: seq<T>, b: seq<T>, x: T)
    requires x in a
    ensures BringToFront(a + b, x) == Remove(a, x) + (b + [x])
  {
    RemoveInFront(a, b, x);
    assert (Remove(a, x) + b) + [x] == Remove(a, x) + (b + [x]);
  }

  /** `a` is `b` with some elements left out, the rest in their order. */
  predicate Subsequence<T(==)>(a: seq<T>, b: seq<T>)
    decreases |b|
  {
    if a == [] then true
    else if b == [] then false
    else (a[0] == b[0] && Subsequence(a[1..], b[1..])) || Subsequence(a, b[1..])
  }

  /** A proper subset leaves some element out. */
  lemma SomeUnseen<T>(seen: set<T>, all: set<T>) returns (x: T)
    requires seen <= all && seen != all
    ensures x in all && x !in seen
  {
    if forall y :: y in all ==> y in seen {
      assert false;
    }
    x :| x in all && x !in seen;
  }

  /** The elements of the first `k` places, one place further on. */
  function Firsts<T>(s: seq<T>, k: int): set<T>
    requires 0 <= k <= |s|
  {
    set j | 0 <= j < k :: s[j]
  }

  lemma FirstsStep<T>(s: seq<T>, k: int)
    requires 0 <= k < |s|
    ensures Firsts(s, k + 1) == Firsts(s, k) + {s[k]}
  {
  }

  lemma FirstsAppend<T>(s: seq<T>, x: T)
    ensures Firsts(s + [x], |s| + 1) == Firsts(s, |s|) + {x}
  {
    var t := s + [x];
    assert t[|s|] == x;
    forall y | y in Firsts(s, |s|) ensures y in Firsts(t, |s| + 1) {
      var j :| 0 <= j < |s| && s[j] == y;
      assert t[j] == y;
    }
  }

  /** A set that grew by `s[k]` from `base` plus the first `k` elements is
      `base` plus the first `k + 1`. */
  lemma FirstsGrow<T>(s: seq<T>, k: int, base: set<T>, before: set<T>, after: set<T>)
    requires 0 <= k < |s| && before == base + Firsts(s, k) && after == before + {s[k]}
    ensures after == base + Firsts(s, k + 1)
  {
    FirstsStep(s, k);
  }

  /** The same, as `s` grows by `x`. */
  lemma FirstsAppendGrow<T>(s: seq<T>, x: T, base: set<T>, before: set<T>, after: set<T>)
    requires before == base + Firsts(s, |s|) && after == before + {x}
    ensures after == base + Firsts(s + [x], |s| + 1)
  {
    FirstsAppend(s, x);
  }
}
