/**
 * The statistics the dashboard computes from the prediction history before
 * rendering (src/components/DashboardPage.tsx).
 */
module Dashboard {
  import opened Records
  import opened History
  import opened Rounding

  /** The input a distribution groups records by. */
  datatype Field = Gender | Smoker | Region

  function FieldOf(p: PredictionRecord, f: Field): string {
    match f
    case Gender => p.inputs.gender
    case Smoker => p.inputs.smoker
    case Region => p.inputs.region
  }

  /** How many records have `value` in field `f` (`filter(...).length`). */
  function CountWith(ps: seq<PredictionRecord>, f: Field, value: string): (n: nat)
    ensures n <= |ps|
  {
    if ps == [] then 0
    else CountWith(ps[..|ps| - 1], f, value) + (if FieldOf(ps[|ps| - 1], f) == value then 1 else 0)
  }

  /** The total of the counts of several values. */
  function SumOfCounts(ps: seq<PredictionRecord>, f: Field, values: seq<string>): nat {
    if values == [] then 0 else CountWith(ps, f, values[0]) + SumOfCounts(ps, f, values[1..])
  }

  /** Adding one record adds one to the total exactly when its value is listed. */
  lemma {:induction false} SumOfCountsSnoc(ps: seq<PredictionRecord>, p: PredictionRecord, f: Field, values: seq<string>)
    requires forall i, j :: 0 <= i < j < |values| ==> values[i] != values[j]
    ensures SumOfCounts(ps + [p], f, values) == SumOfCounts(ps, f, values) + (if FieldOf(p, f) in values then 1 else 0)
  {
    assert (ps + [p])[..|ps + [p]| - 1] == ps;
    if values != [] {
      SumOfCountsSnoc(ps, p, f, values[1..]);
      assert FieldOf(p, f) in values[1..] ==> FieldOf(p, f) != values[0];
      assert FieldOf(p, f) in values <==> FieldOf(p, f) == values[0] || FieldOf(p, f) in values[1..];
    }
  }

  /** When every record's value is one of distinct `values`, their counts add up to the number of records. */
  lemma {:induction false} CountsPartition(ps: seq<PredictionRecord>, f: Field, values: seq<string>)
    requires forall i, j :: 0 <= i < j < |values| ==> values[i] != values[j]
    requires forall i :: 0 <= i < |ps| ==> FieldOf(ps[i], f) in values
    ensures SumOfCounts(ps, f, values) == |ps|
  {
    if ps == [] {
      if values != [] {
        CountsPartition(ps, f, values[1..]);
      }
    } else {
      var init := ps[..|ps| - 1];
      CountsPartition(init, f, values);
      assert init + [ps[|ps| - 1]] == ps;
      SumOfCountsSnoc(init, ps[|ps| - 1], f, values);
    }
  }

  lemma SumOfTwoCounts(ps: seq<PredictionRecord>, f: Field, a: string, b: string)
    ensures SumOfCounts(ps, f, [a, b]) == CountWith(ps, f, a) + CountWith(ps, f, b)
  {
    assert [a, b][1..] == [b];
    assert [b][1..] == [];
    assert SumOfCounts(ps, f, []) == 0;
    assert SumOfCounts(ps, f, [b]) == CountWith(ps, f, b);
  }

  lemma SumOfFourCounts(ps: seq<PredictionRecord>, f: Field, vs: seq<string>)
    requires |vs| == 4
    ensures SumOfCounts(ps, f, vs) == CountWith(ps, f, vs[0]) + CountWith(ps, f, vs[1]) + CountWith(ps, f, vs[2]) + CountWith(ps, f, vs[3])
  {
    assert vs[3..][1..] == [];
    assert SumOfCounts(ps, f, vs[3..]) == CountWith(ps, f, vs[3]);
    assert vs[2..][1..] == vs[3..];
    assert SumOfCounts(ps, f, vs[2..]) == CountWith(ps, f, vs[2]) + SumOfCounts(ps, f, vs[3..]);
    assert vs[1..][1..] == vs[2..];
    assert SumOfCounts(ps, f, vs[1..]) == CountWith(ps, f, vs[1]) + SumOfCounts(ps, f, vs[2..]);
  }

  /** The smoker counts cover every record when each says "yes" or "no". */
  lemma SmokerCountsCoverAll(ps: seq<PredictionRecord>)
    requires forall i :: 0 <= i < |ps| ==> ps[i].inputs.smoker in ["yes", "no"]
    ensures CountWith(ps, Smoker, "yes") + CountWith(ps, Smoker, "no") == |ps|
  {
    CountsPartition(ps, Smoker, ["yes", "no"]);
    SumOfTwoCounts(ps, Smoker, "yes", "no");
  }

  /** The gender counts cover every record when each says "male" or "female". */
  lemma GenderCountsCoverAll(ps: seq<PredictionRecord>)
    requires forall i :: 0 <= i < |ps| ==> ps[i].inputs.gender in ["male", "female"]
    ensures CountWith(ps, Gender, "male") + CountWith(ps, Gender, "female") == |ps|
  {
    CountsPartition(ps, Gender, ["male", "female"]);
    SumOfTwoCounts(ps, Gender, "male", "female");
  }

  // ----------------------------------------------------------- the average

  /** The `reduce` total: the prices added from the first record to the last. */
  function Sum(ps: seq<PredictionRecord>): (total: int)
    ensures ps == [] ==> total == 0
  {
    if ps == [] then 0 else Sum(ps[..|ps| - 1]) + ps[|ps| - 1].predictedPrice
  }

  /** The same total is the first price plus the total of the rest. */
  lemma {:induction false} SumFromFront(ps: seq<PredictionRecord>)
    requires ps != []
    ensures Sum(ps) == ps[0].predictedPrice + Sum(ps[1..])
  {
    if |ps| > 1 {
      var init := ps[..|ps| - 1];
      SumFromFront(init);
      assert init[1..] == ps[1..][..|ps| - 2];
    } else {
      assert ps[..0] == [] && ps[1..] == [];
    }
  }

  /** 0 for no records, otherwise the mean price rounded as `Math.round` does. */
  function Average(ps: seq<PredictionRecord>): (avg: int)
    ensures ps == [] ==> avg == 0
    ensures ps != [] ==> 2 * |ps| * avg - |ps| <= 2 * Sum(ps) < 2 * |ps| * avg + |ps|
  {
    if |ps| > 0 then RoundedQuotient(Sum(ps), |ps|) else 0
  }

  function MinPrice(ps: seq<PredictionRecord>): int
    requires ps != []
  {
    if |ps| == 1 then ps[0].predictedPrice
    else var m := MinPrice(ps[..|ps| - 1]);
      if ps[|ps| - 1].predictedPrice < m then ps[|ps| - 1].predictedPrice else m
  }

  function MaxPrice(ps: seq<PredictionRecord>): int
    requires ps != []
  {
    if |ps| == 1 then ps[0].predictedPrice
    else var m := MaxPrice(ps[..|ps| - 1]);
      if ps[|ps| - 1].predictedPrice > m then ps[|ps| - 1].predictedPrice else m
  }

  lemma {:induction false} MulMonotone(n: nat, a: int, b: int)
    requires a <= b
    ensures n * a <= n * b
  {
    if n > 0 {
      MulMonotone(n - 1, a, b);
      assert n * a == (n - 1) * a + a && n * b == (n - 1) * b + b;
    }
  }

  lemma {:induction false} SumBetween(ps: seq<PredictionRecord>)
    requires ps != []
    ensures |ps| * MinPrice(ps) <= Sum(ps) <= |ps| * MaxPrice(ps)
  {
    if |ps| == 1 {
      assert ps[..0] == [];
    } else {
      var init := ps[..|ps| - 1];
      SumBetween(init);
      var n, lo, hi := |init|, MinPrice(init), MaxPrice(init);
      assert MinPrice(ps) <= lo && MaxPrice(ps) >= hi;
      MulMonotone(n, MinPrice(ps), lo);
      MulMonotone(n, hi, MaxPrice(ps));
      assert |ps| * MinPrice(ps) == n * MinPrice(ps) + MinPrice(ps);
      assert |ps| * MaxPrice(ps) == n * MaxPrice(ps) + MaxPrice(ps);
    }
  }

  lemma MulOrder(n: nat, a: int, b: int)
    requires n > 0
    ensures a <= b <==> n * a <= n * b
  {
    if a <= b {
      MulMonotone(n, a, b);
    } else {
      MulMonotone(n, b + 1, a);
      assert n * (b + 1) == n * b + n;
    }
  }

  /** A rounded quotient of a total between `n * lo` and `n * hi` lies between `lo` and `hi`. */
  lemma RoundedQuotientBetween(n: int, total: int, q: int, lo: int, hi: int)
    requires n > 0
    requires 2 * n * q - n <= 2 * total < 2 * n * q + n
    requires n * lo <= total <= n * hi
    ensures lo <= q <= hi
  {
    var nq := n * q;
    assert 2 * n * q == 2 * nq;
    assert n * (hi + 1) == n * hi + n;
    assert n * (q + 1) == nq + n;
    MulOrder(n, hi + 1, q);
    MulOrder(n, lo, q + 1);
  }

  /** With integer prices the average lies between the cheapest and dearest prediction. */
  lemma AverageBetween(ps: seq<PredictionRecord>)
    requires ps != []
    ensures MinPrice(ps) <= Average(ps) <= MaxPrice(ps)
  {
    SumBetween(ps);
    RoundedQuotientBetween(|ps|, Sum(ps), Average(ps), MinPrice(ps), MaxPrice(ps));
  }

  // ------------------------------------------------------------- regions

  /** The `regionCount` table: one entry per region that occurs, holding its count. */
  method CountRegions(ps: seq<PredictionRecord>) returns (counts: map<string, nat>)
    ensures forall i :: 0 <= i < |ps| ==> ps[i].inputs.region in counts
    ensures forall r :: r in counts ==> counts[r] == CountWith(ps, Region, r) && counts[r] > 0
    ensures forall r :: r !in counts ==> CountWith(ps, Region, r) == 0
  {
    counts := map[];
    for i := 0 to |ps|
      invariant forall j :: 0 <= j < i ==> ps[j].inputs.region in counts
      invariant forall r :: r in counts ==> counts[r] == CountWith(ps[..i], Region, r) && counts[r] > 0
      invariant forall r :: r !in counts ==> CountWith(ps[..i], Region, r) == 0
    {
      assert ps[..i + 1][..i] == ps[..i];
      var region := ps[i].inputs.region;
      counts := counts[region := (if region in counts then counts[region] else 0) + 1];
    }
    assert ps[..|ps|] == ps;
  }

  /** One bar of the region chart. */
  datatype RegionBar = RegionBar(region: string, count: nat)

  /** The four bars, in the fixed order, each showing the region's count or 0. */
  function TopRegions(counts: map<string, nat>): (bars: seq<RegionBar>)
    ensures |bars| == |AllRegions|
    ensures forall i :: 0 <= i < |bars| ==> bars[i].region == RegionNames[i]
  {
    seq(|AllRegions|, i requires 0 <= i < |AllRegions| =>
      RegionBar(RegionLabel(AllRegions[i]), if AllRegions[i] in counts then counts[AllRegions[i]] else 0))
  }

  /** Everything the dashboard shows about the history. */
  datatype Statistics = Statistics(
    total: nat,
    average: int,
    recent: seq<PredictionRecord>,
    smokers: nat,
    nonSmokers: nat,
    males: nat,
    females: nat,
    regions: seq<RegionBar>)

  /** Statistics for the records in `ps`, newest first as the history keeps them. */
  method Summarize(ps: seq<PredictionRecord>) returns (s: Statistics)
    ensures s.total == |ps|
    ensures s.average == Average(ps)
    ensures |s.recent| == if |ps| < 5 then |ps| else 5
    ensures s.recent <= ps
    ensures s.smokers == CountWith(ps, Smoker, "yes") && s.nonSmokers == CountWith(ps, Smoker, "no")
    ensures s.males == CountWith(ps, Gender, "male") && s.females == CountWith(ps, Gender, "female")
    ensures |s.regions| == 4
    ensures forall i :: 0 <= i < 4 ==> s.regions[i] == RegionBar(RegionNames[i], CountWith(ps, Region, AllRegions[i]))
  {
    var recent := if |ps| < 5 then ps else ps[..5];
    var counts := CountRegions(ps);
    s := Statistics(
      |ps|,
      if |ps| > 0 then RoundedQuotient(Sum(ps), |ps|) else 0,
      recent,
      CountWith(ps, Smoker, "yes"), CountWith(ps, Smoker, "no"),
      CountWith(ps, Gender, "male"), CountWith(ps, Gender, "female"),
      TopRegions(counts));
    forall i | 0 <= i < 4
      ensures s.regions[i] == RegionBar(RegionNames[i], CountWith(ps, Region, AllRegions[i]))
    {
      assert s.regions[i].region == RegionNames[i];
    }
  }

  /** The four region codes differ pairwise. */
  lemma RegionsDistinct()
    ensures forall i, j :: 0 <= i < j < |AllRegions| ==> AllRegions[i] != AllRegions[j]
  {
    assert AllRegions[0][5] == 'w' && AllRegions[1][5] == 'e';
    assert AllRegions[2][5] == 'w' && AllRegions[3][5] == 'e';
    assert AllRegions[0][0] == 'n' && AllRegions[1][0] == 'n';
    assert AllRegions[2][0] == 's' && AllRegions[3][0] == 's';
  }

  /** The four region bars cover every record when each names one of the four regions. */
  lemma RegionBarsCoverAll(ps: seq<PredictionRecord>)
    requires forall i :: 0 <= i < |ps| ==> ps[i].inputs.region in AllRegions
    ensures CountWith(ps, Region, AllRegions[0]) + CountWith(ps, Region, AllRegions[1])
          + CountWith(ps, Region, AllRegions[2]) + CountWith(ps, Region, AllRegions[3]) == |ps|
  {
    RegionsDistinct();
    CountsPartition(ps, Region, AllRegions);
    SumOfFourCounts(ps, Region, AllRegions);
  }
}
