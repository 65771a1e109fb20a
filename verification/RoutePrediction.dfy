/** Temporal route evidence from observed latencies: the sorted samples are split into an
    earlier and a later half, and the state says whether latency rose, fell or held. */
module RoutePrediction {
  import opened Base
  import opened Sorting

  datatype Sample = Sample(at: real, latency: real)

  datatype State = InsufficientEvidence | Degrading | Improving | Stable

  datatype Prediction = Prediction(state: State, samples: nat, usable: nat, baseline: Option<real>, recent: Option<real>,
                                   delta: Option<real>)

  /** A sample whose time and latency are finite numbers and whose latency is positive. */
  predicate Usable(s: Option<Sample>) { s.Some? && s.value.latency > 0.0 }

  function Kept(samples: seq<Option<Sample>>): seq<Sample> {
    if samples == [] then []
    else
      var before := Kept(samples[..|samples| - 1]);
      if Usable(samples[|samples| - 1]) then before + [samples[|samples| - 1].value] else before
  }

  predicate Earlier(a: Sample, b: Sample) { a.at < b.at || (a.at == b.at && a.latency < b.latency) }

  function Sum(xs: seq<real>): real { if xs == [] then 0.0 else Sum(xs[..|xs| - 1]) + xs[|xs| - 1] }

  function Mean(xs: seq<real>): real
    requires xs != []
  {
    Sum(xs) / |xs| as real
  }

  function Latencies(samples: seq<Sample>): seq<real> { seq(|samples|, i requires 0 <= i < |samples| => samples[i].latency) }

  function Squares(xs: seq<real>, mean: real): seq<real> {
    seq(|xs|, i requires 0 <= i < |xs| => (xs[i] - mean) * (xs[i] - mean))
  }

  /** The coefficient of variation is at most 0.10, compared without the square root; a mean
      that is not positive counts as infinite variation. */
  predicate Steady(xs: seq<real>)
    requires xs != []
  {
    Mean(xs) > 0.0 && Mean(Squares(xs, Mean(xs))) <= 0.01 * (Mean(xs) * Mean(xs))
  }

  predicate Rising(xs: seq<real>) { forall i | 0 <= i < |xs| - 1 :: xs[i + 1] - xs[i] > 0.0 }

  predicate Falling(xs: seq<real>) { forall i | 0 <= i < |xs| - 1 :: xs[i + 1] - xs[i] < 0.0 }

  function Trend(xs: seq<real>): real
    requires |xs| >= 2
  {
    Mean(xs[|xs| / 2..]) - Mean(xs[..|xs| / 2])
  }

  function StateOf(xs: seq<real>): State
    requires |xs| >= 2
  {
    if |xs| < 4 then InsufficientEvidence
    else if Rising(xs) && Trend(xs) > 0.0 then Degrading
    else if Falling(xs) && Trend(xs) < 0.0 then Improving
    else if Steady(xs) then Stable
    else InsufficientEvidence
  }

  function Predicted(samples: seq<Option<Sample>>): Prediction {
    var sorted := Sorted(Earlier, Kept(samples));
    var xs := Latencies(sorted);
    if |xs| == 0 then Prediction(InsufficientEvidence, |samples|, 0, None, None, None)
    else if |xs| == 1 then Prediction(InsufficientEvidence, |samples|, 1, Some(xs[0]), Some(xs[0]), None)
    else Prediction(StateOf(xs), |samples|, |xs|, Some(Mean(xs[..|xs| / 2])), Some(Mean(xs[|xs| / 2..])), Some(Trend(xs)))
  }

  method Predict(samples: seq<Option<Sample>>) returns (p: Prediction)
    ensures p == Predicted(samples)
  {
    var valid: seq<Sample> := [];
    var i := 0;
    while i < |samples|
      invariant 0 <= i <= |samples| && valid == Kept(samples[..i])
    {
      assert samples[..i + 1][..i] == samples[..i];
      if samples[i].Some? && samples[i].value.latency > 0.0 { valid := valid + [samples[i].value]; }
      i := i + 1;
    }
    assert samples[..i] == samples;
    var xs := Latencies(Sorted(Earlier, valid));
    if xs == [] { return Prediction(InsufficientEvidence, |samples|, 0, None, None, None); }
    if |xs| == 1 { return Prediction(InsufficientEvidence, |samples|, 1, Some(xs[0]), Some(xs[0]), None); }
    var midpoint := |xs| / 2;
    var baseline, recent := Mean(xs[..midpoint]), Mean(xs[midpoint..]);
    p := Prediction(StateOf(xs), |samples|, |xs|, Some(baseline), Some(recent), Some(recent - baseline));
  }

  // --------------------------------------------------------------------- canonical

  lemma EarlierIsWeak()
    ensures WeakOrder(Earlier)
  {}

  lemma {:induction false} KeptMultiset(a: seq<Option<Sample>>, x: Sample)
    ensures multiset(Kept(a))[x] == if x.latency > 0.0 then multiset(a)[Some(x)] else 0
  {
    if a != [] {
      var front, last := a[..|a| - 1], a[|a| - 1];
      assert a == front + [last];
      KeptMultiset(front, x);
    }
  }

  /** The prediction depends on which samples were observed, not on the order they come in. */
  lemma PredictionIsCanonical(a: seq<Option<Sample>>, b: seq<Option<Sample>>)
    requires multiset(a) == multiset(b)
    ensures Predicted(a) == Predicted(b)
  {
    forall x ensures multiset(Kept(a))[x] == multiset(Kept(b))[x] {
      KeptMultiset(a, x);
      KeptMultiset(b, x);
    }
    assert multiset(Kept(a)) == multiset(Kept(b));
    EarlierIsWeak();
    assert Total(Earlier, Kept(a));
    SortedIsCanonical(Earlier, Kept(a), Kept(b));
    SameElements(a, b);
  }

  // ------------------------------------------------------------------------ trends

  lemma {:induction false} MeanBounds(xs: seq<real>, low: real, high: real)
    requires xs != [] && forall i :: 0 <= i < |xs| ==> low <= xs[i] <= high
    ensures low * |xs| as real <= Sum(xs) <= high * |xs| as real
  {
    if |xs| == 1 {
      assert xs[..0] == [];
      assert Sum(xs) == xs[0];
    } else {
      MeanBounds(xs[..|xs| - 1], low, high);
      var n := (|xs| - 1) as real;
      assert |xs| as real == n + 1.0;
      assert low * (n + 1.0) == low * n + low && high * (n + 1.0) == high * n + high;
    }
  }

  lemma MeanWithin(xs: seq<real>, low: real, high: real)
    requires xs != [] && forall i :: 0 <= i < |xs| ==> low <= xs[i] <= high
    ensures low <= Mean(xs) <= high
  {
    MeanBounds(xs, low, high);
    var n := |xs| as real;
    assert low * n / n == low && high * n / n == high;
    Divide(low * n, Sum(xs), n);
    Divide(Sum(xs), high * n, n);
  }

  lemma Divide(a: real, b: real, n: real)
    requires a <= b && n > 0.0
    ensures a / n <= b / n
  {}

  lemma {:induction false} RisingOrdered(xs: seq<real>, i: nat, j: nat)
    requires Rising(xs) && i <= j < |xs|
    ensures xs[i] <= xs[j] && (i < j ==> xs[i] < xs[j])
    decreases j
  {
    if i < j { RisingOrdered(xs, i, j - 1); }
  }

  lemma {:induction false} FallingOrdered(xs: seq<real>, i: nat, j: nat)
    requires Falling(xs) && i <= j < |xs|
    ensures xs[i] >= xs[j] && (i < j ==> xs[i] > xs[j])
    decreases j
  {
    if i < j { FallingOrdered(xs, i, j - 1); }
  }

  /** Strictly rising latencies put the later mean above the earlier one, for every length. */
  lemma RisingMeans(xs: seq<real>)
    requires |xs| >= 2 && Rising(xs)
    ensures Trend(xs) > 0.0
  {
    var m := |xs| / 2;
    var low, high := xs[..m], xs[m..];
    forall i | 0 <= i < |low| ensures low[0] <= low[i] <= xs[m - 1] { RisingOrdered(xs, 0, i); RisingOrdered(xs, i, m - 1); }
    forall i | 0 <= i < |high| ensures xs[m] <= high[i] <= xs[|xs| - 1] { RisingOrdered(xs, m, m + i); RisingOrdered(xs, m + i, |xs| - 1); }
    MeanWithin(low, low[0], xs[m - 1]);
    MeanWithin(high, xs[m], xs[|xs| - 1]);
    RisingOrdered(xs, m - 1, m);
  }

  lemma FallingMeans(xs: seq<real>)
    requires |xs| >= 2 && Falling(xs)
    ensures Trend(xs) < 0.0
  {
    var m := |xs| / 2;
    var low, high := xs[..m], xs[m..];
    forall i | 0 <= i < |low| ensures xs[m - 1] <= low[i] <= low[0] { FallingOrdered(xs, 0, i); FallingOrdered(xs, i, m - 1); }
    forall i | 0 <= i < |high| ensures xs[|xs| - 1] <= high[i] <= xs[m] { FallingOrdered(xs, m, m + i); FallingOrdered(xs, m + i, |xs| - 1); }
    MeanWithin(low, xs[m - 1], low[0]);
    MeanWithin(high, xs[|xs| - 1], xs[m]);
    FallingOrdered(xs, m - 1, m);
  }

  /** So the additional trend tests never decide anything: degrading means strictly rising,
      improving means strictly falling, and no series is both. */
  lemma TrendTestsAreImplied(xs: seq<real>)
    requires |xs| >= 4
    ensures StateOf(xs) == Degrading <==> Rising(xs)
    ensures StateOf(xs) == Improving <==> Falling(xs)
    ensures !(Rising(xs) && Falling(xs))
  {
    if Rising(xs) {
      RisingMeans(xs);
      assert xs[1] - xs[0] > 0.0;
    }
    if Falling(xs) { FallingMeans(xs); }
  }

  /** Ties in time are broken by latency, so four or more samples of one instant read as
      degrading exactly when their latencies are pairwise different, whatever order they were
      taken in; with a repeated latency, or with fewer samples, they never do. */
  lemma SameInstantReadsAsDegrading(samples: seq<Option<Sample>>, at: real)
    requires forall s :: s in Kept(samples) ==> s.at == at
    ensures Predicted(samples).state == Degrading
            <==> |Kept(samples)| >= 4
                 && forall i, j :: 0 <= i < j < |Kept(samples)| ==> Kept(samples)[i].latency != Kept(samples)[j].latency
  {
    var kept := Kept(samples);
    var sorted := Sorted(Earlier, kept);
    EarlierIsWeak();
    SortedIsSorted(Earlier, kept);
    SameElements(sorted, kept);
    if |kept| >= 4 {
      TrendTestsAreImplied(Latencies(sorted));
      if forall i, j :: 0 <= i < j < |kept| ==> kept[i].latency != kept[j].latency {
        DistinctRise(kept, sorted, at);
      } else if Rising(Latencies(sorted)) {
        RisingIsDistinct(kept, sorted, at);
      }
    }
  }

  lemma DistinctRise(kept: seq<Sample>, sorted: seq<Sample>, at: real)
    requires multiset(kept) == multiset(sorted) && InOrder(Earlier, sorted) && forall s :: s in kept ==> s.at == at
    requires forall i, j :: 0 <= i < j < |kept| ==> kept[i].latency != kept[j].latency
    ensures Rising(Latencies(sorted))
  {
    SameElements(sorted, kept);
    NoRepeats(kept, sorted);
    var xs := Latencies(sorted);
    forall i | 0 <= i < |xs| - 1 ensures xs[i + 1] - xs[i] > 0.0 {
      assert !Earlier(sorted[i + 1], sorted[i]) && sorted[i] != sorted[i + 1];
      assert sorted[i] in sorted && sorted[i + 1] in sorted;
      assert sorted[i].at == at && sorted[i + 1].at == at;
    }
  }

  lemma RisingIsDistinct(kept: seq<Sample>, sorted: seq<Sample>, at: real)
    requires multiset(kept) == multiset(sorted) && Rising(Latencies(sorted)) && forall s :: s in kept ==> s.at == at
    ensures forall i, j :: 0 <= i < j < |kept| ==> kept[i].latency != kept[j].latency
  {
    forall i, j | 0 <= i < j < |sorted| ensures sorted[i] != sorted[j] { RisingOrdered(Latencies(sorted), i, j); }
    NoRepeats(sorted, kept);
    forall i, j | 0 <= i < j < |kept| ensures kept[i].latency != kept[j].latency {
      assert kept[i] in kept && kept[j] in kept && kept[i] != kept[j];
    }
  }

  // --------------------------------------------------------------- what it reports

  /** The latencies added up, and their squared distances from a value. */
  ghost function LatencySum(samples: seq<Sample>): real {
    if samples == [] then 0.0 else samples[0].latency + LatencySum(samples[1..])
  }

  ghost function Spread(samples: seq<Sample>, mean: real): real {
    if samples == [] then 0.0
    else (samples[0].latency - mean) * (samples[0].latency - mean) + Spread(samples[1..], mean)
  }

  lemma {:induction false} SumFront(xs: seq<real>)
    requires xs != []
    ensures Sum(xs) == xs[0] + Sum(xs[1..])
  {
    var front := xs[..|xs| - 1];
    if |xs| == 1 {
      assert front == [] && xs[1..] == [];
    } else {
      SumFront(front);
      assert xs[1..][..|xs| - 2] == front[1..];
    }
  }

  lemma {:induction false} SumsAgree(samples: seq<Sample>)
    ensures Sum(Latencies(samples)) == LatencySum(samples)
  {
    if samples != [] {
      SumFront(Latencies(samples));
      assert Latencies(samples)[1..] == Latencies(samples[1..]);
      SumsAgree(samples[1..]);
    }
  }

  lemma SquaresRest(xs: seq<real>, mean: real)
    requires xs != []
    ensures Squares(xs, mean) != [] && Squares(xs, mean)[0] == (xs[0] - mean) * (xs[0] - mean)
    ensures Squares(xs, mean)[1..] == Squares(xs[1..], mean)
  {
    forall i | 0 <= i < |xs| - 1 ensures Squares(xs, mean)[1..][i] == Squares(xs[1..], mean)[i] { assert xs[i + 1] == xs[1..][i]; }
  }

  lemma {:induction false} SquaresAreSpread(samples: seq<Sample>, mean: real)
    ensures Sum(Squares(Latencies(samples), mean)) == Spread(samples, mean)
  {
    if samples != [] {
      var xs := Latencies(samples);
      SquaresRest(xs, mean);
      SumFront(Squares(xs, mean));
      assert xs[1..] == Latencies(samples[1..]);
      SquaresAreSpread(samples[1..], mean);
    }
  }

  /** The mean latency of part of the samples. */
  ghost function Average(samples: seq<Sample>): real
    requires samples != []
  {
    LatencySum(samples) / |samples| as real
  }

  lemma MeanIsAverage(samples: seq<Sample>)
    requires samples != []
    ensures Mean(Latencies(samples)) == Average(samples)
  {
    SumsAgree(samples);
  }

  /** The observed samples with a positive latency, each as often as observed, by time and at one
      time by latency. */
  ghost predicate Timeline(samples: seq<Option<Sample>>, line: seq<Sample>) {
    && (forall x :: multiset(line)[x] == if x.latency > 0.0 then multiset(samples)[Some(x)] else 0)
    && forall i, j :: 0 <= i < j < |line| ==> line[i].at < line[j].at || (line[i].at == line[j].at && line[i].latency <= line[j].latency)
  }

  /** The prediction reports the mean latencies of the earlier and of the later half of the
      timeline and their difference, as far as there are samples for it. */
  lemma PredictionReports(samples: seq<Option<Sample>>) returns (line: seq<Sample>)
    ensures Timeline(samples, line)
    ensures var p, m := Predicted(samples), |line| / 2;
      && p.samples == |samples| && p.usable == |line|
      && (|line| >= 2 ==> p.baseline == Some(Average(line[..m])) && p.recent == Some(Average(line[m..])) && p.delta.Some?
                          && p.delta.value == p.recent.value - p.baseline.value)
      && (|line| == 1 ==> p == Prediction(InsufficientEvidence, |samples|, 1, Some(line[0].latency), Some(line[0].latency), None))
      && (line == [] ==> p == Prediction(InsufficientEvidence, |samples|, 0, None, None, None))
    ensures Predicted(samples).state == if |line| < 4 then InsufficientEvidence else Shape(line)
  {
    line := Sorted(Earlier, Kept(samples));
    EarlierIsWeak();
    SortedIsSorted(Earlier, Kept(samples));
    SortedIsTimeline(samples);
    MeansReported(samples, line);
    StateReported(samples, line);
  }

  lemma StateReported(samples: seq<Option<Sample>>, line: seq<Sample>)
    requires line == Sorted(Earlier, Kept(samples))
    ensures Predicted(samples).state == if |line| < 4 then InsufficientEvidence else Shape(line)
  {
    if |line| >= 4 { StateIsShape(line); }
  }

  lemma MeansReported(samples: seq<Option<Sample>>, line: seq<Sample>)
    requires line == Sorted(Earlier, Kept(samples)) && |line| == |Kept(samples)|
    ensures var p, m := Predicted(samples), |line| / 2;
      && p.samples == |samples| && p.usable == |line|
      && (|line| >= 2 ==> p.baseline == Some(Average(line[..m])) && p.recent == Some(Average(line[m..])) && p.delta.Some?
                          && p.delta.value == p.recent.value - p.baseline.value)
      && (|line| == 1 ==> p == Prediction(InsufficientEvidence, |samples|, 1, Some(line[0].latency), Some(line[0].latency), None))
      && (line == [] ==> p == Prediction(InsufficientEvidence, |samples|, 0, None, None, None))
  {
    if |line| >= 2 {
      HalvesReported(samples);
      HalvesAreAveraged(line);
    }
  }

  lemma HalvesReported(samples: seq<Option<Sample>>)
    requires |Kept(samples)| >= 2
    ensures |Sorted(Earlier, Kept(samples))| == |Kept(samples)|
    ensures var xs := Latencies(Sorted(Earlier, Kept(samples)));
      var baseline, recent := Mean(xs[..|xs| / 2]), Mean(xs[|xs| / 2..]);
      Predicted(samples) == Prediction(StateOf(xs), |samples|, |xs|, Some(baseline), Some(recent), Some(recent - baseline))
  {
    EarlierIsWeak();
    SortedIsSorted(Earlier, Kept(samples));
  }

  lemma SortedIsTimeline(samples: seq<Option<Sample>>)
    ensures Timeline(samples, Sorted(Earlier, Kept(samples)))
  {
    var line := Sorted(Earlier, Kept(samples));
    EarlierIsWeak();
    SortedIsSorted(Earlier, Kept(samples));
    forall x: Sample ensures multiset(line)[x] == if x.latency > 0.0 then multiset(samples)[Some(x)] else 0 { KeptMultiset(samples, x); }
    forall i, j | 0 <= i < j < |line|
      ensures line[i].at < line[j].at || (line[i].at == line[j].at && line[i].latency <= line[j].latency)
    {
      assert !Earlier(line[j], line[i]);
    }
  }

  lemma HalvesAreAveraged(line: seq<Sample>)
    requires |line| >= 2
    ensures var xs := Latencies(line);
      Mean(xs[..|xs| / 2]) == Average(line[..|line| / 2]) && Mean(xs[|xs| / 2..]) == Average(line[|line| / 2..])
  {
    var m := |line| / 2;
    assert Latencies(line)[..m] == Latencies(line[..m]) && Latencies(line)[m..] == Latencies(line[m..]);
    MeanIsAverage(line[..m]);
    MeanIsAverage(line[m..]);
  }

  ghost function Variance(samples: seq<Sample>): real
    requires samples != []
  {
    Spread(samples, Average(samples)) / |samples| as real
  }

  /** The coefficient of variation is at most a tenth. */
  ghost predicate Narrow(mean: real, variance: real) { mean > 0.0 && variance <= 0.01 * (mean * mean) }

  /** Latencies that rise throughout read as degrading, that fall throughout as improving, and
      that keep a coefficient of variation of at most a tenth as stable. */
  ghost function Shape(line: seq<Sample>): State
    requires line != []
  {
    if forall i, j :: 0 <= i < j < |line| ==> line[i].latency < line[j].latency then Degrading
    else if forall i, j :: 0 <= i < j < |line| ==> line[i].latency > line[j].latency then Improving
    else if Narrow(Average(line), Variance(line)) then Stable
    else InsufficientEvidence
  }

  lemma StateIsShape(line: seq<Sample>)
    requires |line| >= 4
    ensures StateOf(Latencies(line)) == Shape(line)
  {
    var xs := Latencies(line);
    TrendTestsAreImplied(xs);
    if Rising(xs) {
      forall i, j | 0 <= i < j < |line| ensures line[i].latency < line[j].latency { RisingOrdered(xs, i, j); }
    }
    if Falling(xs) {
      forall i, j | 0 <= i < j < |line| ensures line[i].latency > line[j].latency { FallingOrdered(xs, i, j); }
    }
    SteadyIsNarrow(line);
  }

  lemma SteadyIsNarrow(line: seq<Sample>)
    requires line != []
    ensures Steady(Latencies(line)) <==> Narrow(Average(line), Variance(line))
  {
    var m := Average(line);
    MeanIsAverage(line);
    SquaresAreSpread(line, m);
    SteadyIs(Latencies(line), m, Variance(line));
  }

  lemma SteadyIs(xs: seq<real>, mean: real, variance: real)
    requires xs != [] && Mean(xs) == mean && Mean(Squares(xs, mean)) == variance
    ensures Steady(xs) <==> Narrow(mean, variance)
  {}
}
