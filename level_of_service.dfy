/** The Level-of-Service classifier shared by both front ends: selecting the
    departures inside a time window, the average headway, and the lookup of
    that headway in the table of seven half-open buckets. */
module LevelOfService {
  import opened Sequences

  /** An upper bound of a bucket: a number of seconds, or JavaScript's Infinity. */
  datatype Limit = At(v: int) | Infinity

  /** The bucket `(min, max]`. */
  datatype Interval = Interval(min: int, max: Limit)

  /** The bounds of the LOS table. Index 0 is "No service", 6 is "A": a
      higher index is better service. */
  const Bounds: seq<Interval> := [
    Interval(7200, Infinity),
    Interval(3600, At(7200)),
    Interval(1800, At(3600)),
    Interval(1200, At(1800)),
    Interval(900, At(1200)),
    Interval(600, At(900)),
    Interval(-1, At(600))
  ]

  /** The index returned when nothing matches: the last key of the table. */
  const LastIndex: nat := 6

  /** A headway as JavaScript computes it: a quotient, or one of the three
      special values a division by zero produces. */
  datatype Headway = Finite(value: real) | PosInf | NegInf | NaN

  /** JavaScript's `h > min`; NaN compares false. */
  predicate Above(h: Headway, min: int)
  {
    match h
    case Finite(v) => v > min as real
    case PosInf => true
    case NegInf => false
    case NaN => false
  }

  /** JavaScript's `h <= max`; Infinity <= Infinity holds, NaN compares false. */
  predicate AtMost(h: Headway, max: Limit)
  {
    match h
    case Finite(v) => max.Infinity? || v <= max.v as real
    case PosInf => max.Infinity?
    case NegInf => true
    case NaN => false
  }

  predicate InBucket(b: Interval, h: Headway)
  {
    Above(h, b.min) && AtMost(h, b.max)
  }

  /** `((end-start)/3600 / n) * 3600` for a window of `span` seconds and `n`
      departures, computed exactly. With no departures the division yields
      +Infinity, -Infinity or NaN according to the sign of the span. */
  function HeadwayOf(span: int, n: nat): (h: Headway)
    ensures n > 0 ==> h.Finite? && h.value * (n as real) == span as real
    ensures n == 0 ==> (h == PosInf <==> span > 0)
    ensures n == 0 ==> (h == NaN <==> span == 0)
    ensures n == 0 ==> (h == NegInf <==> span < 0)
  {
    if n > 0 then Finite(span as real / n as real)
    else if span > 0 then PosInf
    else if span < 0 then NegInf
    else NaN
  }

  /** For at least one departure, comparing the headway with a bound is
      comparing the window length with the bound times the count. */
  lemma HeadwayCrossMultiplied(span: int, n: nat, bound: int)
    requires n > 0
    ensures Above(HeadwayOf(span, n), bound) <==> span > bound * n
    ensures AtMost(HeadwayOf(span, n), At(bound)) <==> span <= bound * n
  {
    var v := HeadwayOf(span, n).value;
    var nr := n as real;
    assert v * nr == span as real;
    assert (bound * n) as real == (bound as real) * nr;
    if v > bound as real {
      assert v * nr > (bound as real) * nr;
    } else {
      assert v * nr <= (bound as real) * nr;
    }
  }

  /** The loop of `calc_los` from index `i` on: the first bucket that
      contains `h`, and the last index when the loop falls through. */
  function FirstFrom(h: Headway, i: nat): (r: nat)
    requires i < |Bounds|
    ensures i <= r < |Bounds|
    ensures r < LastIndex ==> InBucket(Bounds[r], h)
    ensures forall j :: i <= j < r ==> !InBucket(Bounds[j], h)
    decreases |Bounds| - i
  {
    if i == LastIndex || InBucket(Bounds[i], h) then i else FirstFrom(h, i + 1)
  }

  /** The table index `calc_los` returns for headway `h`. */
  function Classify(h: Headway): (r: nat)
    ensures r < |Bounds|
    ensures forall j :: 0 <= j < r ==> !InBucket(Bounds[j], h)
    ensures r < LastIndex ==> InBucket(Bounds[r], h)
  {
    FirstFrom(h, 0)
  }

  /** The `for (var i in LOS)` loop of `calc_los`, with its early return. */
  method FindLos(h: Headway) returns (i: nat)
    ensures i < |Bounds|
    ensures forall j :: 0 <= j < i ==> !InBucket(Bounds[j], h)
    ensures i < LastIndex ==> InBucket(Bounds[i], h)
    ensures i == Classify(h)
  {
    var k := 0;
    while k < |Bounds|
      invariant 0 <= k <= |Bounds|
      invariant forall j :: 0 <= j < k ==> !InBucket(Bounds[j], h)
    {
      if InBucket(Bounds[k], h) {
        return k;
      }
      k := k + 1;
    }
    return LastIndex;
  }

  /** A table whose buckets tile `(last min, +Infinity]` without gaps or
      overlaps: the first reaches Infinity, each bucket's upper bound is the
      previous bucket's lower bound, and no bucket is empty. */
  predicate Contiguous(t: seq<Interval>)
  {
    && |t| > 0
    && t[0].max == Infinity
    && (forall i :: 0 <= i < |t| - 1 ==> t[i + 1].max == At(t[i].min))
    && (forall i :: 0 <= i < |t| ==> t[i].max.Infinity? || t[i].min < t[i].max.v)
  }

  lemma BoundsContiguous()
    ensures Contiguous(Bounds)
    ensures Bounds[0].max == Infinity && Bounds[LastIndex].min == -1
  {
  }

  /** In a contiguous table the lower bounds strictly decrease. */
  lemma {:induction false} MinsDecrease(t: seq<Interval>, i: nat, k: nat)
    requires Contiguous(t)
    requires i < k < |t|
    ensures t[k].min < t[i].min
    decreases k - i
  {
    assert t[k].max == At(t[k - 1].min);
    if i < k - 1 {
      MinsDecrease(t, i, k - 1);
    }
  }

  /** No headway lies in two buckets of a contiguous table. */
  lemma ContiguousDisjoint(t: seq<Interval>, h: Headway, i: nat, j: nat)
    requires Contiguous(t)
    requires i < j < |t|
    requires InBucket(t[i], h)
    ensures !InBucket(t[j], h)
  {
    if InBucket(t[j], h) {
      assert t[j].max == At(t[j - 1].min);
      if i < j - 1 {
        MinsDecrease(t, i, j - 1);
      }
      assert false;
    }
  }

  /** Every headway above the last lower bound lies in some bucket of a
      contiguous table: the first bucket whose lower bound it exceeds. */
  lemma {:induction false} ContiguousCovers(t: seq<Interval>, h: Headway, k: nat)
    requires Contiguous(t)
    requires k < |t|
    requires Above(h, t[|t| - 1].min)
    requires k == 0 || !Above(h, t[k - 1].min)
    ensures exists i :: k <= i < |t| && InBucket(t[i], h)
    decreases |t| - k
  {
    if Above(h, t[k].min) {
      if k > 0 {
        assert t[k].max == At(t[k - 1].min);
      }
      assert InBucket(t[k], h);
    } else {
      ContiguousCovers(t, h, k + 1);
    }
  }

  /** Every headway above -1, +Infinity included, lies in exactly one
      bucket, and `calc_los` returns that bucket's index. */
  lemma ClassifyUniqueBucket(h: Headway)
    requires Above(h, -1)
    ensures InBucket(Bounds[Classify(h)], h)
    ensures forall j :: 0 <= j < |Bounds| && InBucket(Bounds[j], h) ==> j == Classify(h)
  {
    BoundsContiguous();
    ContiguousCovers(Bounds, h, 0);
    var r := Classify(h);
    forall j | 0 <= j < |Bounds| && InBucket(Bounds[j], h) ensures j == r {
      if j < r {
      } else if r < j {
        if r < LastIndex {
          ContiguousDisjoint(Bounds, h, r, j);
        }
      }
    }
    if r == LastIndex {
      var i :| 0 <= i < |Bounds| && InBucket(Bounds[i], h);
      assert i == r;
    }
  }

  /** A headway that is NaN, -Infinity or at most -1 matches no bucket, and
      the loop falls through to the last index. */
  lemma ClassifyFallsThrough(h: Headway)
    requires !Above(h, -1)
    ensures forall j :: 0 <= j < |Bounds| ==> !InBucket(Bounds[j], h)
    ensures Classify(h) == LastIndex
  {
    forall j | 0 <= j < |Bounds| ensures !InBucket(Bounds[j], h) {
      assert Bounds[j].min >= -1;
    }
  }

  /** A window with positive length and no departure in it is "No service". */
  lemma NoDeparturesIsNoService(span: int)
    requires span > 0
    ensures Classify(HeadwayOf(span, 0)) == 0
  {
    ClassifyUniqueBucket(PosInf);
  }

  /** An empty window with no departures yields NaN, which falls through to
      index 6 ("A"). */
  lemma EmptyWindowFallsThrough()
    ensures HeadwayOf(0, 0) == NaN
    ensures Classify(HeadwayOf(0, 0)) == LastIndex
  {
    ClassifyFallsThrough(NaN);
  }

  predicate InWindow(t: int, start: int, end: int)
  {
    start < t <= end
  }

  /** `calc_trips`: the departures `t` with `start < t <= end`. */
  function CalcTrips(starts: seq<int>, start: int, end: int): (r: seq<int>)
    ensures |r| <= |starts|
  {
    if starts == [] then []
    else
      (if InWindow(starts[0], start, end) then [starts[0]] else []) + CalcTrips(starts[1..], start, end)
  }

  /** The filter keeps exactly the departures inside the window, each as
      often as it occurs. */
  lemma {:induction false} CalcTripsSelects(starts: seq<int>, start: int, end: int)
    ensures forall t :: t in CalcTrips(starts, start, end) <==> t in starts && InWindow(t, start, end)
    ensures forall x :: multiset(CalcTrips(starts, start, end))[x] ==
              if InWindow(x, start, end) then multiset(starts)[x] else 0
  {
    if starts != [] {
      CalcTripsSelects(starts[1..], start, end);
      assert starts == [starts[0]] + starts[1..];
    }
  }

  /** The selected departures keep their original order. */
  lemma {:induction false} CalcTripsKeepsOrder(starts: seq<int>, start: int, end: int)
    ensures Subsequence(CalcTrips(starts, start, end), starts)
  {
    if starts != [] {
      CalcTripsKeepsOrder(starts[1..], start, end);
      var r := CalcTrips(starts, start, end);
      if InWindow(starts[0], start, end) {
        assert r[1..] == CalcTrips(starts[1..], start, end);
      } else {
        assert r == CalcTrips(starts[1..], start, end);
      }
    }
  }

  /** The index `Trip.calc` stores for a trip with departures `starts`. */
  function WindowLos(starts: seq<int>, start: int, end: int): (r: nat)
    ensures r < |Bounds|
  {
    Classify(HeadwayOf(end - start, |CalcTrips(starts, start, end)|))
  }

  const MorningPeakStarts: seq<int> := [25500, 26100, 28900, 29500, 30300]

  /** In the scenario of five departures in the 7:00-9:00 window, all five
      count. */
  lemma MorningPeakDepartures()
    ensures CalcTrips(MorningPeakStarts, 25200, 32400) == MorningPeakStarts
  {
    AllInWindow(MorningPeakStarts, 25200, 32400);
  }

  /** Five departures in two hours: headway 1440 seconds, bucket 3 ("D"). */
  lemma MorningPeakBucket()
    ensures HeadwayOf(32400 - 25200, 5) == Finite(1440.0)
    ensures Classify(HeadwayOf(32400 - 25200, 5)) == 3
  {
    assert HeadwayOf(7200, 5) == Finite(1440.0);
    ClassifyUniqueBucket(Finite(1440.0));
    assert InBucket(Bounds[3], Finite(1440.0));
  }

  /** The scenario end to end: `Trip.calc` stores index 3 ("D"). */
  lemma MorningPeakExample()
    ensures WindowLos(MorningPeakStarts, 25200, 32400) == 3
  {
    MorningPeakDepartures();
    MorningPeakBucket();
  }

  /** When every departure is inside the window, all of them are selected. */
  lemma {:induction false} AllInWindow(starts: seq<int>, start: int, end: int)
    requires forall i :: 0 <= i < |starts| ==> InWindow(starts[i], start, end)
    ensures CalcTrips(starts, start, end) == starts
  {
    if starts != [] {
      AllInWindow(starts[1..], start, end);
      assert starts == [starts[0]] + starts[1..];
    }
  }
}
