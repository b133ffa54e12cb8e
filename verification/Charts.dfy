/** The dashboard's smoothing of portfolio values, over the reals. */
module Anomalies {
  datatype Point = Point(date: string, value: real)

  function Abs(x: real): real { if x < 0.0 then -x else x }

  /** The value kept after `prev`: a jump of more than half of a positive predecessor is held back. */
  function Kept(prev: real, v: real): real {
    if prev > 0.0 && Abs(v - prev) / prev > 0.5 then prev else v
  }

  function Filtered(points: seq<Point>): (r: seq<Point>)
    ensures |r| == |points|
    decreases |points|
  {
    if points == [] then []
    else
      var n := |points| - 1;
      var before := Filtered(points[..n]);
      before + [if n == 0 then points[n] else points[n].(value := Kept(before[n - 1].value, points[n].value))]
  }

  method FilterAnomalies(points: seq<Point>) returns (filtered: seq<Point>)
    ensures filtered == Filtered(points)
  {
    filtered := [];
    for i := 0 to |points|
      invariant filtered == Filtered(points[..i])
    {
      var p := points[i];
      if i > 0 && |filtered| > 0 {
        var prev := filtered[|filtered| - 1];
        if prev.value > 0.0 {
          var change := Abs(p.value - prev.value) / prev.value;
          if change > 0.5 {
            p := p.(value := prev.value);
          }
        }
      }
      filtered := filtered + [p];
      assert points[..i + 1][..i] == points[..i];
    }
    assert points[..|points|] == points;
  }

  /** A step of at most half of a positive predecessor. */
  predicate Step(prev: real, v: real) { prev > 0.0 ==> 0.5 * prev <= v <= 1.5 * prev }

  predicate Calm(points: seq<Point>) {
    forall i :: 0 < i < |points| ==> Step(points[i - 1].value, points[i].value)
  }

  lemma KeptWhenStep(prev: real, v: real)
    ensures Kept(prev, v) == v <==> Step(prev, v)
    ensures Step(prev, Kept(prev, v))
  {
    if prev > 0.0 {
      Ratio(Abs(v - prev), prev);
    }
  }

  lemma Ratio(x: real, y: real)
    requires y > 0.0
    ensures x / y > 0.5 <==> x > 0.5 * y
  {
    var q := x / y;
    assert q * y == x;
    if q > 0.5 {
      Scale(0.5, q, y);
    } else if q < 0.5 {
      Scale(q, 0.5, y);
    }
  }

  lemma Scale(a: real, b: real, y: real)
    requires a < b && y > 0.0
    ensures a * y < b * y
  {
  }

  /** What comes out never jumps: within half of every positive predecessor; dates are untouched
      and the first point is kept. */
  lemma {:induction false} OutputIsCalm(points: seq<Point>)
    ensures Calm(Filtered(points))
    ensures forall i :: 0 <= i < |points| ==> Filtered(points)[i].date == points[i].date
    ensures points != [] ==> Filtered(points)[0] == points[0]
    decreases |points|
  {
    if points != [] {
      var n := |points| - 1;
      OutputIsCalm(points[..n]);
      if n > 0 {
        KeptWhenStep(Filtered(points[..n])[n - 1].value, points[n].value);
      }
    }
  }

  /** The filter changes nothing exactly when there is nothing to hold back. */
  lemma {:induction false} UnchangedExactlyWhenCalm(points: seq<Point>)
    ensures Filtered(points) == points <==> Calm(points)
    decreases |points|
  {
    if points != [] {
      var n := |points| - 1;
      var before := points[..n];
      UnchangedExactlyWhenCalm(before);
      assert Filtered(points)[..n] == Filtered(before);
      assert points == before + [points[n]];
      if Calm(points) {
        assert Calm(before);
        if n > 0 {
          KeptWhenStep(points[n - 1].value, points[n].value);
        }
      } else {
        OutputIsCalm(points);
      }
    }
  }

  lemma FilteringTwiceIsFilteringOnce(points: seq<Point>)
    ensures Filtered(Filtered(points)) == Filtered(points)
  {
    OutputIsCalm(points);
    UnchangedExactlyWhenCalm(Filtered(points));
  }

  function Power(b: real, n: nat): real { if n == 0 then 1.0 else b * Power(b, n - 1) }

  /** From a positive start the values stay between a halving and a half-again at each step. */
  lemma {:induction false} GrowthIsBounded(points: seq<Point>, i: nat)
    requires i < |points| && points[0].value > 0.0
    ensures
      var a := points[0].value;
      a * Power(0.5, i) <= Filtered(points)[i].value <= a * Power(1.5, i) && Filtered(points)[i].value > 0.0
    decreases i
  {
    OutputIsCalm(points);
    var out, a := Filtered(points), points[0].value;
    if i > 0 {
      GrowthIsBounded(points, i - 1);
      assert Step(out[i - 1].value, out[i].value);
      Halve(a, Power(0.5, i - 1), 0.5);
      Halve(a, Power(1.5, i - 1), 1.5);
    }
  }

  lemma Halve(a: real, p: real, f: real)
    ensures a * (f * p) == f * (a * p)
  {
  }
}

/** How broadly a portfolio is rising, over the reals. */
module Breadth {
  import opened Common

  /** A holding; a missing market value counts as zero. */
  datatype Holding = Holding(
    ticker: string, marketValue: real, trendScore: Option<real>,
    price: Option<real>, yesterday: Option<real>, units: Option<real>)

  datatype Status = Falling | Flat | Rising

  datatype Summary = Summary(
    risingCount: nat, flatCount: nat, fallingCount: nat,
    risingPct: real, flatPct: real, fallingPct: real,
    trend: string, score: real, todayChange: Option<real>)

  datatype Segment = Segment(ticker: string, status: Status, weightPct: real)

  function Score(h: Holding): real { if h.trendScore.Some? then h.trendScore.value else 0.0 }

  function StatusOf(h: Holding): Status {
    if Score(h) > 0.1 then Rising else if Score(h) < -0.1 then Falling else Flat
  }

  function TodayChange(h: Holding): Option<real> {
    if h.price.None? || h.yesterday.None? || h.units.None? then None
    else Some((h.price.value - h.yesterday.value) * h.units.value)
  }

  function Active(hs: seq<Holding>): (r: seq<Holding>)
    ensures forall h :: h in r ==> h in hs && h.marketValue > 0.0
    decreases |hs|
  {
    if hs == [] then []
    else
      var n := |hs| - 1;
      Active(hs[..n]) + if hs[n].marketValue > 0.0 then [hs[n]] else []
  }

  // Sums over holdings, from the front.
  function Total(hs: seq<Holding>): real
    decreases |hs|
  {
    if hs == [] then 0.0 else Total(hs[..|hs| - 1]) + hs[|hs| - 1].marketValue
  }

  function Weighted(hs: seq<Holding>): real
    decreases |hs|
  {
    if hs == [] then 0.0 else Weighted(hs[..|hs| - 1]) + Score(hs[|hs| - 1]) * hs[|hs| - 1].marketValue
  }

  function Count(hs: seq<Holding>, s: Status): nat
    decreases |hs|
  {
    if hs == [] then 0 else Count(hs[..|hs| - 1], s) + if StatusOf(hs[|hs| - 1]) == s then 1 else 0
  }

  function Weight(hs: seq<Holding>, s: Status): real
    decreases |hs|
  {
    if hs == [] then 0.0
    else
      var h := hs[|hs| - 1];
      Weight(hs[..|hs| - 1], s) + if StatusOf(h) == s then h.marketValue else 0.0
  }

  function Today(hs: seq<Holding>): Option<real>
    decreases |hs|
  {
    if hs == [] then None
    else
      var before, change := Today(hs[..|hs| - 1]), TodayChange(hs[|hs| - 1]);
      if change.None? then before
      else Some((if before.Some? then before.value else 0.0) + change.value)
  }

  function Label(avg: real): string {
    if avg > 0.3 then "Uptrend"
    else if avg > 0.1 then "Mixed-Up"
    else if avg > -0.1 then "Mixed"
    else if avg > -0.3 then "Mixed-Down"
    else "Downtrend"
  }

  /** A share of a total, in percent. */
  function Percent(part: real, total: real): real { if total > 0.0 then part / total * 100.0 else 0.0 }

  function Summarized(a: seq<Holding>): Summary {
    var total := Total(a);
    var avg := if total > 0.0 then Weighted(a) / total else 0.0;
    Summary(Count(a, Rising), Count(a, Flat), Count(a, Falling),
            Percent(Weight(a, Rising), total), Percent(Weight(a, Flat), total), Percent(Weight(a, Falling), total),
            Label(avg), avg, Today(a))
  }

  method ComputeBreadth(holdings: seq<Holding>) returns (r: Option<Summary>)
    ensures r == if Active(holdings) == [] then None else Some(Summarized(Active(holdings)))
  {
    var active := Active(holdings);
    if |active| == 0 {
      return None;
    }
    var t := Accumulate(active);
    var avg := if t.total > 0.0 then t.weighted / t.total else 0.0;
    var trend;
    if avg > 0.3 {
      trend := "Uptrend";
    } else if avg > 0.1 {
      trend := "Mixed-Up";
    } else if avg > -0.1 {
      trend := "Mixed";
    } else if avg > -0.3 {
      trend := "Mixed-Down";
    } else {
      trend := "Downtrend";
    }
    return Some(Summary(t.rising, t.flat, t.falling,
                        Percent(t.risingWeight, t.total), Percent(t.flatWeight, t.total),
                        Percent(t.fallingWeight, t.total),
                        trend, avg, t.today));
  }

  /** The accumulators of the loop over the active holdings. */
  datatype Tally = Tally(
    rising: nat, flat: nat, falling: nat, risingWeight: real, flatWeight: real, fallingWeight: real,
    total: real, weighted: real, today: Option<real>)

  method Accumulate(active: seq<Holding>) returns (t: Tally)
    ensures t == Tally(Count(active, Rising), Count(active, Flat), Count(active, Falling),
                       Weight(active, Rising), Weight(active, Flat), Weight(active, Falling),
                       Total(active), Weighted(active), Today(active))
  {
    var rising, flat, falling := 0, 0, 0;
    var risingWeight, flatWeight, fallingWeight := 0.0, 0.0, 0.0;
    var totalWeight, weightedScore := 0.0, 0.0;
    var todayChange, todayValid := 0.0, false;
    for i := 0 to |active|
      invariant totalWeight == Total(active[..i]) && weightedScore == Weighted(active[..i])
      invariant rising == Count(active[..i], Rising) && risingWeight == Weight(active[..i], Rising)
      invariant flat == Count(active[..i], Flat) && flatWeight == Weight(active[..i], Flat)
      invariant falling == Count(active[..i], Falling) && fallingWeight == Weight(active[..i], Falling)
      invariant Today(active[..i]) == if todayValid then Some(todayChange) else None
      invariant !todayValid ==> todayChange == 0.0
    {
      var h := active[i];
      assert active[..i + 1][..i] == active[..i];
      var w, score := h.marketValue, Score(h);
      totalWeight := totalWeight + w;
      weightedScore := weightedScore + score * w;
      if score > 0.1 {
        rising, risingWeight := rising + 1, risingWeight + w;
      } else if score < -0.1 {
        falling, fallingWeight := falling + 1, fallingWeight + w;
      } else {
        flat, flatWeight := flat + 1, flatWeight + w;
      }
      var tc := TodayChange(h);
      if tc.Some? {
        todayChange, todayValid := todayChange + tc.value, true;
      }
    }
    assert active[..|active|] == active;
    t := Tally(rising, flat, falling, risingWeight, flatWeight, fallingWeight,
               totalWeight, weightedScore, if todayValid then Some(todayChange) else None);
  }

  lemma {:induction false} PartsMakeTheWhole(hs: seq<Holding>)
    requires forall h :: h in hs ==> h.marketValue > 0.0
    ensures Count(hs, Rising) + Count(hs, Flat) + Count(hs, Falling) == |hs|
    ensures Weight(hs, Rising) + Weight(hs, Flat) + Weight(hs, Falling) == Total(hs)
    ensures hs != [] ==> Total(hs) > 0.0
    decreases |hs|
  {
    if hs != [] {
      PartsMakeTheWhole(hs[..|hs| - 1]);
    }
  }

  lemma PercentAdds(a: real, b: real, c: real, total: real)
    requires total > 0.0 && a + b + c == total
    ensures Percent(a, total) + Percent(b, total) + Percent(c, total) == 100.0
  {
    assert a / total + b / total + c / total == (a + b + c) / total == 1.0;
  }

  /** `sum` is at least `rate` for each unit of `total`. */
  predicate AtLeast(rate: real, total: real, sum: real) { rate * total <= sum }

  lemma {:induction false} WeightedBetween(hs: seq<Holding>, low: real, high: real)
    requires forall h :: h in hs ==> h.marketValue > 0.0 && low <= Score(h) <= high
    ensures AtLeast(low, Total(hs), Weighted(hs)) && AtLeast(-high, Total(hs), -Weighted(hs))
    decreases |hs|
  {
    if hs != [] {
      var n := |hs| - 1;
      var before, h := hs[..n], hs[n];
      WeightedBetween(before, low, high);
      assert h in hs;
      OneMore(low, Score(h), Total(before), Weighted(before), h.marketValue);
      OneMore(-high, -Score(h), Total(before), -Weighted(before), h.marketValue);
      Negated(Score(h), h.marketValue);
    }
  }

  lemma Negated(a: real, b: real)
    ensures -a * b == -(a * b)
  {
  }

  lemma OneMore(rate: real, score: real, total: real, sum: real, w: real)
    requires AtLeast(rate, total, sum) && rate <= score && w > 0.0
    ensures AtLeast(rate, total + w, sum + score * w)
  {
    assert rate * (total + w) == rate * total + rate * w;
    assert (score - rate) * w >= 0.0;
    assert (score - rate) * w == score * w - rate * w;
  }

  lemma MeanBetween(low: real, sum: real, high: real, total: real)
    requires total > 0.0 && AtLeast(low, total, sum) && AtLeast(-high, total, -sum)
    ensures low <= sum / total <= high
  {
    var q := sum / total;
    assert q * total == sum;
    if q < low {
      Strict(q, low, total);
    }
    if high < q {
      Strict(high, q, total);
    }
  }

  lemma Strict(a: real, b: real, w: real)
    requires a < b && w > 0.0
    ensures a * w < b * w
  {
  }

  /** For any holdings with an active one, the counts add up to the active holdings and the
      three weights to one hundred. */
  lemma BreadthAddsUp(holdings: seq<Holding>)
    requires Active(holdings) != []
    ensures
      var s := Summarized(Active(holdings));
      && s.risingCount + s.flatCount + s.fallingCount == |Active(holdings)|
      && s.risingPct + s.flatPct + s.fallingPct == 100.0
  {
    var a := Active(holdings);
    PartsMakeTheWhole(a);
    PercentAdds(Weight(a, Rising), Weight(a, Flat), Weight(a, Falling), Total(a));
  }

  /** The score lies between any bounds on the active trend scores, so between the least and the greatest. */
  lemma ScoreIsBetween(holdings: seq<Holding>, low: real, high: real)
    requires Active(holdings) != []
    requires forall h :: h in Active(holdings) ==> low <= Score(h) <= high
    ensures low <= Summarized(Active(holdings)).score <= high
  {
    var a := Active(holdings);
    PartsMakeTheWhole(a);
    WeightedBetween(a, low, high);
    MeanBetween(low, Weighted(a), high, Total(a));
  }

  // ---- Segments ----

  function SegmentOf(h: Holding, total: real): Segment
    requires total > 0.0
  {
    Segment(h.ticker, StatusOf(h), Percent(h.marketValue, total))
  }

  function Segments(hs: seq<Holding>, total: real): seq<Segment>
    requires total > 0.0
    decreases |hs|
  {
    if hs == [] then [] else Segments(hs[..|hs| - 1], total) + [SegmentOf(hs[|hs| - 1], total)]
  }

  function Order(s: Status): int { match s case Falling => 0 case Flat => 1 case Rising => 2 }

  /** The comparison used for sorting; `rank` is the locale's ordering of tickers. */
  predicate Before(a: Segment, b: Segment, rank: string -> int) {
    Order(a.status) < Order(b.status) || (a.status == b.status && rank(a.ticker) <= rank(b.ticker))
  }

  predicate Sorted(xs: seq<Segment>, rank: string -> int) {
    forall i, j :: 0 <= i < j < |xs| ==> Before(xs[i], xs[j], rank)
  }

  function SegmentWeight(xs: seq<Segment>, s: Status): real
    decreases |xs|
  {
    if xs == [] then 0.0
    else
      var x := xs[|xs| - 1];
      SegmentWeight(xs[..|xs| - 1], s) + if x.status == s then x.weightPct else 0.0
  }

  /** `x` put behind everything that may stay before it. */
  function Insert(xs: seq<Segment>, x: Segment, rank: string -> int): (r: seq<Segment>)
    ensures multiset(r) == multiset(xs) + multiset{x}
    decreases |xs|
  {
    if xs == [] then [x]
    else
      var n := |xs| - 1;
      assert xs == xs[..n] + [xs[n]];
      if Before(xs[n], x, rank) then xs + [x] else Insert(xs[..n], x, rank) + [xs[n]]
  }

  lemma {:induction false} InsertSorts(xs: seq<Segment>, x: Segment, rank: string -> int)
    requires Sorted(xs, rank)
    ensures Sorted(Insert(xs, x, rank), rank)
    decreases |xs|
  {
    if xs != [] {
      var n := |xs| - 1;
      if Before(xs[n], x, rank) {
        assert forall i :: 0 <= i < |xs| ==> Before(xs[i], x, rank);
      } else {
        InsertSorts(xs[..n], x, rank);
        InsertMembers(xs[..n], x, rank);
        AppendSorts(Insert(xs[..n], x, rank), xs[n], rank);
      }
    }
  }

  lemma InsertMembers(xs: seq<Segment>, x: Segment, rank: string -> int)
    ensures forall y :: y in Insert(xs, x, rank) ==> y in xs || y == x
  {
    forall y | y in Insert(xs, x, rank) ensures y in xs || y == x {
      assert y in multiset(Insert(xs, x, rank));
    }
  }

  lemma AppendSorts(xs: seq<Segment>, last: Segment, rank: string -> int)
    requires Sorted(xs, rank) && forall y :: y in xs ==> Before(y, last, rank)
    ensures Sorted(xs + [last], rank)
  {
  }

  lemma {:induction false} InsertKeepsWeight(xs: seq<Segment>, x: Segment, rank: string -> int, s: Status)
    ensures SegmentWeight(Insert(xs, x, rank), s) == SegmentWeight(xs, s) + if x.status == s then x.weightPct else 0.0
    decreases |xs|
  {
    if xs == [] {
      assert [x][..0] == [];
    } else {
      var n := |xs| - 1;
      if Before(xs[n], x, rank) {
        assert (xs + [x])[..|xs|] == xs;
      } else {
        InsertKeepsWeight(xs[..n], x, rank, s);
        var inner := Insert(xs[..n], x, rank);
        assert (inner + [xs[n]])[..|inner|] == inner;
      }
    }
  }

  lemma PercentSum(a: real, b: real, total: real)
    requires total > 0.0
    ensures Percent(a + b, total) == Percent(a, total) + Percent(b, total)
  {
    assert (a + b) / total == a / total + b / total;
  }

  /** The shares of the holdings of one status, added up. */
  function Shares(hs: seq<Holding>, total: real, s: Status): real
    decreases |hs|
  {
    if hs == [] then 0.0
    else
      var h := hs[|hs| - 1];
      Shares(hs[..|hs| - 1], total, s) + if StatusOf(h) == s then Percent(h.marketValue, total) else 0.0
  }

  lemma {:induction false} SharesAreTheShare(hs: seq<Holding>, total: real, s: Status)
    requires total > 0.0
    ensures Shares(hs, total, s) == Percent(Weight(hs, s), total)
    decreases |hs|
  {
    if hs != [] {
      var n := |hs| - 1;
      SharesAreTheShare(hs[..n], total, s);
      PercentSum(Weight(hs[..n], s), hs[n].marketValue, total);
    }
  }

  /** The segments with each one inserted in its place. */
  function SortedSegments(hs: seq<Holding>, total: real, rank: string -> int): seq<Segment>
    requires total > 0.0
    decreases |hs|
  {
    if hs == [] then [] else Insert(SortedSegments(hs[..|hs| - 1], total, rank), SegmentOf(hs[|hs| - 1], total), rank)
  }

  lemma {:induction false} SortedSegmentsAreSorted(hs: seq<Holding>, total: real, rank: string -> int)
    requires total > 0.0
    ensures Sorted(SortedSegments(hs, total, rank), rank)
    ensures multiset(SortedSegments(hs, total, rank)) == multiset(Segments(hs, total))
    decreases |hs|
  {
    if hs != [] {
      SortedSegmentsAreSorted(hs[..|hs| - 1], total, rank);
      InsertSorts(SortedSegments(hs[..|hs| - 1], total, rank), SegmentOf(hs[|hs| - 1], total), rank);
    }
  }

  lemma {:induction false} SortedSegmentsWeigh(hs: seq<Holding>, total: real, rank: string -> int, s: Status)
    requires total > 0.0
    ensures SegmentWeight(SortedSegments(hs, total, rank), s) == Shares(hs, total, s)
    decreases |hs|
  {
    if hs != [] {
      var n := |hs| - 1;
      SortedSegmentsWeigh(hs[..n], total, rank, s);
      InsertKeepsWeight(SortedSegments(hs[..n], total, rank), SegmentOf(hs[n], total), rank, s);
    }
  }

  /** The bar segments: one for each active holding, falling before flat before rising and by
      ticker within; for every status their weights add up to the summary's weight. */
  method BreadthSegments(holdings: seq<Holding>, rank: string -> int) returns (segments: seq<Segment>)
    ensures Active(holdings) == [] ==> segments == []
    ensures Active(holdings) != [] ==>
              var a := Active(holdings);
              && Total(a) > 0.0
              && multiset(segments) == multiset(Segments(a, Total(a)))
              && Sorted(segments, rank)
              && forall s :: SegmentWeight(segments, s) == Percent(Weight(a, s), Total(a))
  {
    var active := Active(holdings);
    if |active| == 0 {
      return [];
    }
    PartsMakeTheWhole(active);
    var totalWeight := SumOf(active);
    segments := SortSegments(active, totalWeight, rank);
    SortedSegmentsAreSorted(active, totalWeight, rank);
    forall s ensures SegmentWeight(segments, s) == Percent(Weight(active, s), totalWeight) {
      SortedSegmentsWeigh(active, totalWeight, rank, s);
      SharesAreTheShare(active, totalWeight, s);
    }
  }

  method SortSegments(active: seq<Holding>, total: real, rank: string -> int) returns (segments: seq<Segment>)
    requires total > 0.0
    ensures segments == SortedSegments(active, total, rank)
  {
    segments := [];
    for i := 0 to |active|
      invariant segments == SortedSegments(active[..i], total, rank)
    {
      assert active[..i + 1][..i] == active[..i];
      segments := Insert(segments, SegmentOf(active[i], total), rank);
    }
    assert active[..|active|] == active;
  }

  method SumOf(active: seq<Holding>) returns (sum: real)
    ensures sum == Total(active)
  {
    sum := 0.0;
    for i := 0 to |active|
      invariant sum == Total(active[..i])
    {
      assert active[..i + 1][..i] == active[..i];
      sum := sum + active[i].marketValue;
    }
    assert active[..|active|] == active;
  }
}
