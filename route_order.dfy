/** Ordering of route groups: the integer sort key that `re_route_sort`
    extracts from a route short name, JavaScript's string comparison, the
    `route_sort` comparator, and keeping the group list sorted. */
module RouteOrder {
  import opened Text
  import opened Wrappers

  /** The longest run of digits at the start of `s`. */
  function LeadingDigits(s: string): (d: string)
    ensures |d| <= |s|
  {
    if s != [] && IsDigit(s[0]) then [s[0]] + LeadingDigits(s[1..]) else []
  }

  /** The run is a prefix of digits that cannot be extended. */
  lemma {:induction false} LeadingDigitsMeans(s: string)
    ensures AllDigits(LeadingDigits(s)) && LeadingDigits(s) == s[..|LeadingDigits(s)|]
    ensures |LeadingDigits(s)| == |s| || !IsDigit(s[|LeadingDigits(s)|])
  {
    if s != [] && IsDigit(s[0]) {
      LeadingDigitsMeans(s[1..]);
    }
  }

  /** Group 2 of `/^(\D)?(\d+)/.exec(name)`, or None when the pattern does
      not match at the start of the name. */
  function SortDigits(name: string): (m: Option<string>)
  {
    if name != [] && IsDigit(name[0]) then Some(LeadingDigits(name))
    else if |name| > 1 && IsDigit(name[1]) then Some(LeadingDigits(name[1..]))
    else None
  }

  /** `RouteView.initialize`: `parseInt(m[2])` on a match, else 0. */
  function RouteSortKey(name: string): (k: nat)
  {
    match SortDigits(name)
    case Some(d) =>
      LeadingDigitsMeans(name);
      LeadingDigitsMeans(name[1..]);
      DigitsValue(d)
    case None => 0
  }

  /** `name` matches `^(\D)?(\d+)` with `g1` as group 1 (empty when the
      optional group is skipped) and `g2` as the greedy group 2. */
  predicate RegexMatch(name: string, g1: string, g2: string)
  {
    && |g1| <= 1
    && (forall i :: 0 <= i < |g1| ==> !IsDigit(g1[i]))
    && |g2| > 0 && AllDigits(g2)
    && |g1| + |g2| <= |name|
    && name[..|g1| + |g2|] == g1 + g2
    && (|g1| + |g2| == |name| || !IsDigit(name[|g1| + |g2|]))
  }

  /** A maximal run of leading digits is the one `LeadingDigits` finds. */
  lemma {:induction false} MaximalRunUnique(s: string, d: string)
    requires AllDigits(d) && |d| <= |s| && s[..|d|] == d
    requires |d| == |s| || !IsDigit(s[|d|])
    ensures d == LeadingDigits(s)
  {
    if d != [] {
      assert s[0] == d[0];
      assert s[1..][..|d| - 1] == d[1..];
      MaximalRunUnique(s[1..], d[1..]);
    } else if s != [] {
      assert !IsDigit(s[0]);
    }
  }

  /** `SortDigits` is exactly what the regular expression captures: any
      match captures it, and when it finds digits there is a match. */
  lemma SortDigitsIsRegex(name: string)
    ensures forall g1, g2 :: RegexMatch(name, g1, g2) ==> SortDigits(name) == Some(g2)
    ensures SortDigits(name).Some? ==> exists g1 :: RegexMatch(name, g1, SortDigits(name).value)
  {
    forall g1, g2 | RegexMatch(name, g1, g2) ensures SortDigits(name) == Some(g2) {
      if |g1| == 0 {
        MatchAtStart(name, g1, g2);
      } else {
        MatchAfterOne(name, g1, g2);
      }
    }
    if name != [] && IsDigit(name[0]) {
      var d := LeadingDigits(name);
      LeadingDigitsMeans(name);
      assert RegexMatch(name, [], d);
    } else if |name| > 1 && IsDigit(name[1]) {
      var d := LeadingDigits(name[1..]);
      LeadingDigitsMeans(name[1..]);
      assert name[..1 + |d|] == [name[0]] + d;
      assert RegexMatch(name, [name[0]], d);
    }
  }

  /** A match that skips group 1 captures the leading digits. */
  lemma MatchAtStart(name: string, g1: string, g2: string)
    requires RegexMatch(name, g1, g2) && |g1| == 0
    ensures SortDigits(name) == Some(g2)
  {
    assert name[..|g2|] == g2;
    assert name[0] == g2[0];
    MaximalRunUnique(name, g2);
  }

  /** A match with one non-digit in group 1 captures the digits after it. */
  lemma MatchAfterOne(name: string, g1: string, g2: string)
    requires RegexMatch(name, g1, g2) && |g1| == 1
    ensures SortDigits(name) == Some(g2)
  {
    var n := 1 + |g2|;
    assert name[..n] == g1 + g2;
    assert name[0] == g1[0] && name[1] == g2[0];
    assert name[1..][..|g2|] == name[..n][1..];
    assert (g1 + g2)[1..] == g2;
    MaximalRunUnique(name[1..], g2);
  }

  /** The examples of the source's comment: one leading letter is skipped,
      two are not. */
  lemma RouteSortKeyExamples()
    ensures RouteSortKey("M1") == 1
    ensures RouteSortKey("1A") == 1
    ensures RouteSortKey("1") == 1
    ensures RouteSortKey("10") == 10
    ensures RouteSortKey("NX1") == 0
    ensures RouteSortKey("AB") == 0
  {
    assert LeadingDigits("1") == "1";
    assert LeadingDigits("1A") == "1";
    assert LeadingDigits("10") == "10";
    assert "M1"[1..] == "1";
  }

  /** JavaScript's `a < b` on strings: lexicographic by character, a proper
      prefix first. */
  predicate StrLess(a: string, b: string)
  {
    if a == [] then b != []
    else if b == [] then false
    else if a[0] != b[0] then a[0] < b[0]
    else StrLess(a[1..], b[1..])
  }

  lemma {:induction false} StrLessIrreflexive(a: string)
    ensures !StrLess(a, a)
  {
    if a != [] {
      StrLessIrreflexive(a[1..]);
    }
  }

  lemma {:induction false} StrLessTransitive(a: string, b: string, c: string)
    requires StrLess(a, b) && StrLess(b, c)
    ensures StrLess(a, c)
  {
    if a != [] && b != [] && c != [] && a[0] == b[0] && b[0] == c[0] {
      StrLessTransitive(a[1..], b[1..], c[1..]);
    }
  }

  lemma {:induction false} StrLessTotal(a: string, b: string)
    requires a != b
    ensures StrLess(a, b) || StrLess(b, a)
  {
    if a != [] && b != [] && a[0] == b[0] {
      assert a == [a[0]] + a[1..] && b == [b[0]] + b[1..];
      StrLessTotal(a[1..], b[1..]);
    }
  }

  lemma {:induction false} StrLessAsymmetric(a: string, b: string)
    requires StrLess(a, b)
    ensures !StrLess(b, a)
  {
    if a != [] && b != [] && a[0] == b[0] {
      StrLessAsymmetric(a[1..], b[1..]);
    }
  }

  /** What `route_sort` compares: the numeric key, then the short name. */
  datatype RouteKey = RouteKey(sort: int, name: string)

  predicate KeyLess(a: RouteKey, b: RouteKey)
  {
    a.sort < b.sort || (a.sort == b.sort && StrLess(a.name, b.name))
  }

  /** `route_sort(a, b)`: negative when `a` goes first. */
  function RouteCompare(a: RouteKey, b: RouteKey): (c: int)
    ensures c == 1 || c == -1
  {
    if a.sort == b.sort then (if StrLess(b.name, a.name) then 1 else -1)
    else if a.sort > b.sort then 1 else -1
  }

  /** For distinct names the comparator is the strict order `KeyLess`, and
      it orders every pair one way or the other. */
  lemma RouteCompareIsKeyLess(a: RouteKey, b: RouteKey)
    requires a.name != b.name
    ensures RouteCompare(a, b) < 0 <==> KeyLess(a, b)
    ensures KeyLess(a, b) || KeyLess(b, a)
    ensures !(KeyLess(a, b) && KeyLess(b, a))
  {
    StrLessTotal(a.name, b.name);
    if StrLess(a.name, b.name) {
      StrLessAsymmetric(a.name, b.name);
    }
  }

  lemma KeyLessTransitive(a: RouteKey, b: RouteKey, c: RouteKey)
    requires KeyLess(a, b) && KeyLess(b, c)
    ensures KeyLess(a, c)
  {
    if a.sort == b.sort && b.sort == c.sort {
      StrLessTransitive(a.name, b.name, c.name);
    }
  }

  lemma KeyLessIrreflexive(a: RouteKey)
    ensures !KeyLess(a, a)
  {
    StrLessIrreflexive(a.name);
  }

  predicate StrictlySorted<T>(s: seq<T>, key: T -> RouteKey)
  {
    forall i, j :: 0 <= i < j < |s| ==> KeyLess(key(s[i]), key(s[j]))
  }

  /** Puts `x` in front of the first element that sorts after it. */
  function InsertByKey<T>(s: seq<T>, x: T, key: T -> RouteKey): (r: seq<T>)
    ensures multiset(r) == multiset(s) + multiset{x}
    ensures |r| == |s| + 1
  {
    if s == [] || KeyLess(key(x), key(s[0])) then [x] + s
    else
      assert s == [s[0]] + s[1..];
      [s[0]] + InsertByKey(s[1..], x, key)
  }

  /** Inserting a new name into a strictly sorted list keeps it strictly
      sorted. */
  lemma {:induction false} InsertByKeySorted<T>(s: seq<T>, x: T, key: T -> RouteKey)
    requires StrictlySorted(s, key)
    requires forall i :: 0 <= i < |s| ==> key(s[i]).name != key(x).name
    ensures StrictlySorted(InsertByKey(s, x, key), key)
  {
    if s == [] {
    } else if KeyLess(key(x), key(s[0])) {
      var r := [x] + s;
      forall i, j | 0 <= i < j < |r| ensures KeyLess(key(r[i]), key(r[j])) {
        if i == 0 && j > 1 {
          KeyLessTransitive(key(x), key(s[0]), key(s[j - 1]));
        }
      }
    } else {
      RouteCompareIsKeyLess(key(x), key(s[0]));
      var tail := InsertByKey(s[1..], x, key);
      InsertByKeySorted(s[1..], x, key);
      var r := [s[0]] + tail;
      forall j | 0 <= j < |tail| ensures KeyLess(key(s[0]), key(tail[j])) {
        assert tail[j] in multiset(tail);
        if tail[j] != x {
          assert tail[j] in multiset(s[1..]);
          var m :| 0 <= m < |s[1..]| && s[1..][m] == tail[j];
          assert s[1 + m] == tail[j];
        }
      }
    }
  }

  /** The head of a strictly sorted list sorts before every other element. */
  lemma HeadSortsFirst<T>(a: seq<T>, x: T, key: T -> RouteKey)
    requires StrictlySorted(a, key)
    requires x in a && x != a[0]
    ensures KeyLess(key(a[0]), key(x))
  {
    var i :| 0 <= i < |a| && a[i] == x;
  }

  /** A strictly sorted arrangement of given elements is unique, so the
      list JavaScript's `sort` produces with this comparator is the one
      `InsertByKey` builds, whatever algorithm the engine uses. */
  lemma {:induction false} StrictlySortedUnique<T>(a: seq<T>, b: seq<T>, key: T -> RouteKey)
    requires StrictlySorted(a, key) && StrictlySorted(b, key)
    requires multiset(a) == multiset(b)
    ensures a == b
  {
    assert |a| == |multiset(a)| == |multiset(b)| == |b|;
    if a != [] {
      SameHead(a, b, key);
      assert a == [a[0]] + a[1..] && b == [b[0]] + b[1..];
      assert multiset(a[1..]) == multiset(a) - multiset{a[0]};
      assert multiset(b[1..]) == multiset(b) - multiset{b[0]};
      StrictlySortedUnique(a[1..], b[1..], key);
    }
  }

  /** Two strict orders of the same elements start with the same one. */
  lemma SameHead<T>(a: seq<T>, b: seq<T>, key: T -> RouteKey)
    requires StrictlySorted(a, key) && StrictlySorted(b, key)
    requires multiset(a) == multiset(b) && a != [] && b != []
    ensures a[0] == b[0]
  {
    assert a[0] in multiset(b) && b[0] in multiset(a);
    if a[0] != b[0] {
      HeadSortsFirst(b, a[0], key);
      HeadSortsFirst(a, b[0], key);
      KeyLessTransitive(key(a[0]), key(b[0]), key(a[0]));
      KeyLessIrreflexive(key(a[0]));
    }
  }
}
