/**
 Cost records and anomalies (internal/costintel/costintel.go), over real numbers.

 `math.Sqrt` is an input: the standard deviation is whatever non-negative number squares to
 the variance.
 */
module CostIntel {
  import opened RealArithmetic
  import opened Wrappers

  datatype Record = Record(id: string, model: string, cost: real)

  datatype Severity = Warning | Critical

  datatype Anomaly = Anomaly(recordId: string, model: string, cost: real, expected: real, severity: Severity)

  const MAX_RECORDS := 10000
  const MAX_ANOMALIES := 1000

  function Sum(xs: seq<real>): real {
    if xs == [] then 0.0 else Sum(xs[..|xs| - 1]) + xs[|xs| - 1]
  }

  function Square(x: real): real {
    x * x
  }

  function SumSq(xs: seq<real>): real {
    if xs == [] then 0.0 else SumSq(xs[..|xs| - 1]) + Square(xs[|xs| - 1])
  }

  /** The costs recorded for one model, in order. */
  function Sample(records: seq<Record>, model: string): seq<real> {
    if records == [] then []
    else
      var last := records[|records| - 1];
      Sample(records[..|records| - 1], model) + if last.model == model then [last.cost] else []
  }

  function MeanOf(n: real, sum: real): real
    requires n > 0.0
  {
    sum / n
  }

  function VarianceOf(n: real, sum: real, sumSq: real): real
    requires n > 0.0
  {
    sumSq / n - MeanOf(n, sum) * MeanOf(n, sum)
  }

  function Mean(xs: seq<real>): real {
    if xs == [] then 0.0 else MeanOf(|xs| as real, Sum(xs))
  }

  function Variance(xs: seq<real>): real {
    if xs == [] then 0.0 else VarianceOf(|xs| as real, Sum(xs), SumSq(xs))
  }

  function Max0(x: real): real {
    if x < 0.0 then 0.0 else x
  }

  predicate IsStdDev(s: real, xs: seq<real>) {
    s >= 0.0 && s * s == Max0(Variance(xs))
  }

  /** What `detectAnomaly` concludes about `r`, given the records (of which `r` is one). */
  function Flag(records: seq<Record>, r: Record, stddev: real): Option<Severity> {
    var xs := Sample(records, r.model);
    if |records| < 10 || |xs| < 5 || stddev == 0.0 then None
    else
      var deviation := (r.cost - Mean(xs)) / stddev;
      if deviation > 4.0 then Some(Critical) else if deviation > 3.0 then Some(Warning) else None
  }

  function LastN<T>(s: seq<T>, n: nat): seq<T> {
    if |s| > n then s[|s| - n..] else s
  }

  /** The engine's records after one more. */
  function Recorded(records: seq<Record>, r: Record): seq<Record> {
    LastN(records + [r], MAX_RECORDS)
  }

  class Engine {
    var records: seq<Record>
    var anomalies: seq<Anomaly>

    constructor ()
      ensures records == [] && anomalies == []
    {
      records, anomalies := [], [];
    }

    method RecordCost(r: Record, stddev: real)
      requires IsStdDev(stddev, Sample(Recorded(records, r), r.model))
      modifies this
      ensures records == Recorded(old(records), r)
      ensures var flag := Flag(records, r, stddev);
        anomalies == if flag.None? then old(anomalies) else
          LastN(old(anomalies) + [Anomaly(r.id, r.model, r.cost, Mean(Sample(records, r.model)), flag.value)], MAX_ANOMALIES)
    {
      records := records + [r];
      if |records| > MAX_RECORDS {
        records := records[|records| - MAX_RECORDS..];
      }
      DetectAnomaly(r, stddev);
    }

    method DetectAnomaly(r: Record, stddev: real)
      requires IsStdDev(stddev, Sample(records, r.model))
      modifies this`anomalies
      ensures var flag := Flag(records, r, stddev);
        anomalies == if flag.None? then old(anomalies) else
          LastN(old(anomalies) + [Anomaly(r.id, r.model, r.cost, Mean(Sample(records, r.model)), flag.value)], MAX_ANOMALIES)
    {
      if |records| < 10 {
        return;
      }
      var sum, sumSq, count := 0.0, 0.0, 0;
      ghost var xs: seq<real> := [];
      for i := 0 to |records|
        invariant anomalies == old(anomalies)
        invariant xs == Sample(records[..i], r.model)
        invariant sum == Sum(xs) && sumSq == SumSq(xs) && count == |xs|
      {
        assert records[..i + 1][..i] == records[..i];
        if records[i].model == r.model {
          sum := sum + records[i].cost;
          sumSq := sumSq + records[i].cost * records[i].cost;
          count := count + 1;
          assert (xs + [records[i].cost])[..|xs|] == xs;
          xs := xs + [records[i].cost];
        }
      }
      assert records[..|records|] == records;
      if count < 5 || stddev == 0.0 {
        return;
      }
      var mean := sum / (count as real);
      var deviation := (r.cost - mean) / stddev;
      if deviation > 3.0 {
        var severity := if deviation > 4.0 then Critical else Warning;
        anomalies := anomalies + [Anomaly(r.id, r.model, r.cost, mean, severity)];
        if |anomalies| > MAX_ANOMALIES {
          anomalies := anomalies[|anomalies| - MAX_ANOMALIES..];
        }
      }
    }
  }

  // ---------------------------------------------------------------------------------------
  // What is kept
  // ---------------------------------------------------------------------------------------

  /** Records, each with the standard deviation computed for it. */
  type History = seq<(Record, real)>

  function RecordsAfter(h: History): seq<Record> {
    if h == [] then [] else Recorded(RecordsAfter(h[..|h| - 1]), h[|h| - 1].0)
  }

  /** The anomalies that one more record adds. */
  function Found(records: seq<Record>, r: Record, stddev: real): seq<Anomaly> {
    var flag := Flag(records, r, stddev);
    if flag.None? then [] else [Anomaly(r.id, r.model, r.cost, Mean(Sample(records, r.model)), flag.value)]
  }

  function AnomaliesAfter(h: History): seq<Anomaly> {
    if h == [] then []
    else LastN(AnomaliesAfter(h[..|h| - 1]) + Found(RecordsAfter(h), h[|h| - 1].0, h[|h| - 1].1), MAX_ANOMALIES)
  }

  function AllRecords(h: History): seq<Record> {
    seq(|h|, i requires 0 <= i < |h| => h[i].0)
  }

  /** Every anomaly ever found, in order. */
  function AllFound(h: History): seq<Anomaly> {
    if h == [] then [] else AllFound(h[..|h| - 1]) + Found(RecordsAfter(h), h[|h| - 1].0, h[|h| - 1].1)
  }

  lemma LastOfLast<T>(s: seq<T>, x: seq<T>, n: nat)
    ensures LastN(LastN(s, n) + x, n) == LastN(s + x, n)
  {
  }

  /** After every history the engine holds exactly the last 10000 records and the last 1000 of
      all anomalies found, in order. */
  lemma {:induction false} KeepsTheLatest(h: History)
    ensures var all := AllRecords(h);
      RecordsAfter(h) == if |all| > 10000 then all[|all| - 10000..] else all
    ensures var found := AllFound(h);
      AnomaliesAfter(h) == if |found| > 1000 then found[|found| - 1000..] else found
  {
    if h != [] {
      var before, last := h[..|h| - 1], h[|h| - 1];
      KeepsTheLatest(before);
      assert AllRecords(h) == AllRecords(before) + [last.0];
      LastOfLast(AllRecords(before), [last.0], MAX_RECORDS);
      LastOfLast(AllFound(before), Found(RecordsAfter(h), last.0, last.1), MAX_ANOMALIES);
      hide Found;
    }
  }

  // ---------------------------------------------------------------------------------------
  // How far from the mean a member of its own sample can be
  // ---------------------------------------------------------------------------------------

  lemma SquareNonNegative(x: real)
    ensures x * x >= 0.0
  {
  }

  lemma CauchyStep(m: real, a: real, b: real, x: real)
    requires m >= 0.0 && a * a <= m * b && (m == 0.0 ==> a == 0.0 && b == 0.0)
    ensures (a + x) * (a + x) <= (m + 1.0) * (b + x * x)
  {
    // (m + 1)(b + x^2) - (a + x)^2 == (m b - a^2) + (b + m x^2 - 2 a x)
    var rest := b + m * x * x - 2.0 * a * x;
    assert (m + 1.0) * (b + x * x) - (a + x) * (a + x) == (m * b - a * a) + rest;
    if m > 0.0 {
      SquareNonNegative(a - m * x);
      assert m * rest == m * b - a * a + (a - m * x) * (a - m * x);
      assert m * rest >= 0.0;
      NonNegativeFactor(m, rest);
    }
  }

  lemma NonNegativeFactor(m: real, r: real)
    requires m > 0.0 && m * r >= 0.0
    ensures r >= 0.0
  {
  }

  /** The square of a sum is at most the count times the sum of the squares. */
  lemma {:induction false} CauchySchwarz(xs: seq<real>)
    ensures Sum(xs) * Sum(xs) <= (|xs| as real) * SumSq(xs)
  {
    if xs != [] {
      var ys, x := xs[..|xs| - 1], xs[|xs| - 1];
      CauchySchwarz(ys);
      CauchyStep(|ys| as real, Sum(ys), SumSq(ys), x);
    }
  }

  lemma Positive(x: real, y: real, xy: real)
    requires x > 0.0 && y > 0.0 && xy == x * y
    ensures xy > 0.0
  {
  }

  lemma BoundOnSums(m: real, a: real, b: real, c: real)
    requires m >= 0.0 && a * a <= m * b
    ensures var n, s, q := m + 1.0, a + c, b + c * c;
      var mean := s / n;
      (c - mean) * (c - mean) <= m * (q / n - mean * mean)
  {
  }

  /** The sums of a sample and one more member. */
  lemma SumsOneMore(xs: seq<real>, c: real)
    ensures var all := xs + [c];
      var n, s := |xs| as real + 1.0, Sum(xs) + c;
      Mean(all) == MeanOf(n, s) && Variance(all) == VarianceOf(n, s, SumSq(xs) + Square(c))
  {
  }

  /** A sample's last member is at most the square root of (count - 1) deviations away. */
  lemma DeviationBound(xs: seq<real>, c: real)
    ensures var all := xs + [c];
      (c - Mean(all)) * (c - Mean(all)) <= (|xs| as real) * Variance(all)
  {
    hide Mean, Variance, Sum, SumSq;
    CauchySchwarz(xs);
    SumsOneMore(xs, c);
    BoundOnSums(|xs| as real, Sum(xs), SumSq(xs), c);
  }

  /** A deviation of more than k standard deviations needs a variance below its square. */
  lemma DeviationSquared(d: real, s: real, k: real)
    requires s > 0.0 && k > 0.0 && d / s > k
    ensures d * d > k * k * (s * s)
  {
    var z := d / s;
    assert z * s == d;
    assert z * z > k * k by {
      assert (z - k) * (z + k) > 0.0;
    }
    assert d * d == (z * z) * (s * s);
    assert s * s > 0.0;
    assert (z * z - k * k) * (s * s) > 0.0;
  }

  lemma TooFewRecords(m: nat, v: real, d: real, k: real)
    requires v > 0.0 && d * d > k * k * v && d * d <= (m as real) * v
    ensures m as real > k * k
  {
  }

  /** Whatever was recorded before: an anomaly needs at least 11 records of its model in the
      window, the new one included, and a critical one at least 18.  So the two minimum-data
      guards of the code never decide anything. */
  lemma AnomalyNeedsElevenRecords(records: seq<Record>, r: Record, stddev: real)
    requires IsStdDev(stddev, Sample(Recorded(records, r), r.model))
    ensures var flag := Flag(Recorded(records, r), r, stddev);
      var n := |Sample(Recorded(records, r), r.model)|;
      && (flag.Some? ==> n >= 11)
      && (flag == Some(Critical) ==> n >= 18)
  {
    var all := Recorded(records, r);
    var flag := Flag(all, r, stddev);
    if flag.Some? {
      assert all[|all| - 1] == r;
      var xs := Sample(all[..|all| - 1], r.model);
      var sample := Sample(all, r.model);
      assert sample == xs + [r.cost];
      hide Sample, Mean, Variance, Recorded;
      DeviationBound(xs, r.cost);
      var d, v := r.cost - Mean(sample), stddev * stddev;
      assert v > 0.0 && v == Variance(sample);
      DeviationSquared(d, stddev, 3.0);
      TooFewRecords(|xs|, v, d, 3.0);
      if flag == Some(Critical) {
        DeviationSquared(d, stddev, 4.0);
        TooFewRecords(|xs|, v, d, 4.0);
      }
    }
  }

  // The bounds are sharp

  function Flat(n: nat, b: real): seq<real> {
    seq(n, _ => b)
  }

  lemma {:induction false} FlatSums(n: nat, b: real)
    ensures Sum(Flat(n, b)) == (n as real) * b && SumSq(Flat(n, b)) == (n as real) * (b * b)
  {
    if n > 0 {
      assert Flat(n, b)[..n - 1] == Flat(n - 1, b);
      FlatSums(n - 1, b);
    }
  }

  /** One outlier over `m` equal costs lies exactly on the bound. */
  lemma OutlierOverFlatHistory(m: nat, b: real, p: real)
    requires m >= 1 && p > 0.0
    ensures var all := Flat(m, b) + [b + p];
      var d := b + p - Mean(all);
      d > 0.0 && Variance(all) > 0.0 && d * d == (m as real) * Variance(all)
  {
    hide Mean, Variance, Sum, SumSq;
    FlatSums(m, b);
    SumsOneMore(Flat(m, b), b + p);
    OutlierOnSums(m as real, b, p);
  }

  lemma OutlierOnSums(m: real, b: real, p: real)
    requires m > 0.0 && p > 0.0
    ensures var n, s, q := m + 1.0, m * b + (b + p), m * (b * b) + (b + p) * (b + p);
      var mean := s / n;
      var d, v := b + p - mean, q / n - mean * mean;
      d > 0.0 && v > 0.0 && d * d == m * v
  {
  }

  lemma RatioAbove(d: real, s: real, m: real, k: real)
    requires d > 0.0 && s > 0.0 && k > 0.0 && d * d == m * (s * s)
    ensures d / s > k <==> m > k * k
  {
    var z, s2 := d / s, s * s;
    assert z * s == d;
    Positive(s, s, s2);
    assert (z * z) * s2 == m * s2;
    QuotientIs(z * z, m * s2, s2);
    QuotientIs(m, m * s2, s2);
    assert z * z == m && z > 0.0;
    assert m - k * k == (z - k) * (z + k);
    assert z > k ==> (z - k) * (z + k) > 0.0;
    assert z <= k ==> (k - z) * (z + k) >= 0.0;
  }

  lemma SampleNoLonger(records: seq<Record>, model: string)
    ensures |Sample(records, model)| <= |records|
  {
  }

  /** A cost spike over a flat history (`m` equal costs of its model before it in the window)
      is flagged exactly from 11 records on, and is critical exactly from 18 on, however large
      the spike. */
  lemma SpikeFlaggedExactlyFromEleven(records: seq<Record>, r: Record, m: nat, b: real, p: real, stddev: real)
    requires p > 0.0 && r.cost == b + p
    requires var window := Recorded(records, r);
      Sample(window[..|window| - 1], r.model) == Flat(m, b)
    requires IsStdDev(stddev, Sample(Recorded(records, r), r.model))
    ensures var flag := Flag(Recorded(records, r), r, stddev);
      (flag.Some? <==> m + 1 >= 11) && (flag == Some(Critical) <==> m + 1 >= 18)
  {
    AnomalyNeedsElevenRecords(records, r, stddev);
    var window := Recorded(records, r);
    var all := Sample(window, r.model);
    assert window[|window| - 1] == r;
    assert all == Flat(m, b) + [b + p];
    SampleNoLonger(window, r.model);
    hide Sample, Recorded, Mean, Variance, Flat;
    if m >= 10 {
      OutlierOverFlatHistory(m, b, p);
      var d := b + p - Mean(all);
      assert stddev > 0.0;
      RatioAbove(d, stddev, m as real, 3.0);
      RatioAbove(d, stddev, m as real, 4.0);
    }
  }
}
