/**
 * The composite score: an importance-weighted average of the six
 * satisfaction values, followed by a logistic squash
 * L / (1 + exp(-k (x - x0))) with L = 100, k = 0.05, x0 = 50.
 *
 * Arithmetic is on real numbers. `math.Exp` is a parameter of which the
 * model assumes only what the properties need: it is positive, strictly
 * increasing and exp(0) = 1.
 */
module Score {
  import opened Records

  const L: real := 100.0
  const K: real := 0.05
  const X0: real := 50.0

  /** What the model assumes of the exponential function. */
  ghost predicate IsExp(exp: real -> real) {
    && (forall x :: exp(x) > 0.0)
    && exp(0.0) == 1.0
    && (forall x, y :: x < y ==> exp(x) < exp(y))
  }

  lemma DivideBelow(a: real, d: real)
    requires a > 0.0 && d > 1.0
    ensures 0.0 < a / d < a
  {
  }

  lemma DivideAntitone(a: real, d1: real, d2: real)
    requires a > 0.0 && 0.0 < d1 < d2
    ensures a / d2 < a / d1
  {
    assert a / d2 * d2 == a == a / d1 * d1;
  }

  /** ApplyLogisticFunction. */
  function Logistic(exp: real -> real, x: real): (r: real)
    requires IsExp(exp)
    ensures 0.0 < r < L
  {
    DivideBelow(L, 1.0 + exp(-K * (x - X0)));
    L / (1.0 + exp(-K * (x - X0)))
  }

  /** The squash maps the midpoint to half the maximum. */
  lemma LogisticMidpoint(exp: real -> real)
    requires IsExp(exp)
    ensures Logistic(exp, X0) == 50.0
  {
    assert -K * (X0 - X0) == 0.0;
  }

  /** The squash is strictly increasing. */
  lemma LogisticStrictlyIncreasing(exp: real -> real, x: real, y: real)
    requires IsExp(exp)
    requires x < y
    ensures Logistic(exp, x) < Logistic(exp, y)
  {
    assert -K * (y - X0) < -K * (x - X0);
    DivideAntitone(L, 1.0 + exp(-K * (y - X0)), 1.0 + exp(-K * (x - X0)));
  }

  // ---------------------------------------------------------------- sums over the six dimensions

  /** Σ imp·sat on raw values. */
  function RawWeighted(sats: seq<real>, imps: seq<real>): real
    requires |sats| == |imps|
  {
    if |sats| == 0 then 0.0 else imps[0] * sats[0] + RawWeighted(sats[1..], imps[1..])
  }

  /** Σ imp on raw values. */
  function RawImportance(imps: seq<real>): real {
    if |imps| == 0 then 0.0 else imps[0] + RawImportance(imps[1..])
  }

  /** weightedSum as the code accumulates it: Σ (imp/100)·(sat/100). */
  function NormWeighted(sats: seq<real>, imps: seq<real>): real
    requires |sats| == |imps|
  {
    if |sats| == 0 then 0.0 else (imps[0] / 100.0) * (sats[0] / 100.0) + NormWeighted(sats[1..], imps[1..])
  }

  /** importanceSum as the code accumulates it: Σ imp/100. */
  function NormImportance(imps: seq<real>): real {
    if |imps| == 0 then 0.0 else imps[0] / 100.0 + NormImportance(imps[1..])
  }

  lemma {:induction false} NormalisedSums(sats: seq<real>, imps: seq<real>)
    requires |sats| == |imps|
    ensures NormWeighted(sats, imps) == RawWeighted(sats, imps) / 10000.0
    ensures NormImportance(imps) == RawImportance(imps) / 100.0
    decreases |sats|
  {
    if |sats| > 0 {
      NormalisedSums(sats[1..], imps[1..]);
    }
  }

  /** Changing one satisfaction changes Σ imp·sat by that dimension's importance times the change. */
  lemma {:induction false} RawWeightedUpdate(sats: seq<real>, imps: seq<real>, i: nat, v: real)
    requires |sats| == |imps| && i < |sats|
    ensures RawWeighted(sats[i := v], imps) == RawWeighted(sats, imps) + imps[i] * (v - sats[i])
    decreases |sats|
  {
    if i > 0 {
      assert sats[i := v][1..] == sats[1..][i - 1 := v];
      RawWeightedUpdate(sats[1..], imps[1..], i - 1, v);
    }
  }

  lemma MulMonotone(a: real, b: real, c: real)
    requires a <= b && c >= 0.0
    ensures a * c <= b * c
  {
  }

  lemma MulPositive(a: real, b: real)
    requires a > 0.0 && b > 0.0
    ensures a * b > 0.0
  {
  }

  /** One dimension's term, bounded: lo·imp <= imp·sat <= hi·imp when imp is 0 or sat is in [lo, hi]. */
  lemma TermBounds(imp: real, sat: real, lo: real, hi: real)
    requires imp >= 0.0
    requires imp > 0.0 ==> lo <= sat <= hi
    ensures lo * imp <= imp * sat <= hi * imp
  {
    if imp > 0.0 {
      MulMonotone(lo, sat, imp);
      MulMonotone(sat, hi, imp);
    }
  }

  lemma Distribute(c: real, a: real, b: real)
    ensures c * (a + b) == c * a + c * b
  {
  }

  /** With non-negative importances, satisfactions of weighted dimensions at least lo give Σ imp·sat >= lo·Σ imp. */
  lemma {:induction false} RawWeightedLower(sats: seq<real>, imps: seq<real>, lo: real)
    requires |sats| == |imps|
    requires forall j :: 0 <= j < |imps| ==> imps[j] >= 0.0
    requires forall j :: 0 <= j < |imps| && imps[j] > 0.0 ==> lo <= sats[j]
    ensures lo * RawImportance(imps) <= RawWeighted(sats, imps)
    decreases |sats|
  {
    if |sats| > 0 {
      RawWeightedLower(sats[1..], imps[1..], lo);
      TermBounds(imps[0], sats[0], lo, sats[0]);
      Distribute(lo, imps[0], RawImportance(imps[1..]));
    }
  }

  /** With non-negative importances, satisfactions of weighted dimensions at most hi give Σ imp·sat <= hi·Σ imp. */
  lemma {:induction false} RawWeightedUpper(sats: seq<real>, imps: seq<real>, hi: real)
    requires |sats| == |imps|
    requires forall j :: 0 <= j < |imps| ==> imps[j] >= 0.0
    requires forall j :: 0 <= j < |imps| && imps[j] > 0.0 ==> sats[j] <= hi
    ensures RawWeighted(sats, imps) <= hi * RawImportance(imps)
    decreases |sats|
  {
    if |sats| > 0 {
      RawWeightedUpper(sats[1..], imps[1..], hi);
      TermBounds(imps[0], sats[0], sats[0], hi);
      Distribute(hi, imps[0], RawImportance(imps[1..]));
    }
  }

  /** Non-negative importances have a non-negative sum. */
  lemma {:induction false} RawImportanceNonNegative(imps: seq<real>)
    requires forall j :: 0 <= j < |imps| ==> imps[j] >= 0.0
    ensures RawImportance(imps) >= 0.0
    decreases |imps|
  {
    if |imps| > 0 {
      RawImportanceNonNegative(imps[1..]);
    }
  }

  function Scale(imps: seq<real>, c: real): (r: seq<real>)
    ensures |r| == |imps|
    ensures forall j :: 0 <= j < |imps| ==> r[j] == c * imps[j]
  {
    seq(|imps|, j requires 0 <= j < |imps| => c * imps[j])
  }

  /** Scaling every importance by c scales both raw sums by c. */
  lemma {:induction false} RawSumsScale(sats: seq<real>, imps: seq<real>, c: real)
    requires |sats| == |imps|
    ensures RawWeighted(sats, Scale(imps, c)) == c * RawWeighted(sats, imps)
    ensures RawImportance(Scale(imps, c)) == c * RawImportance(imps)
    decreases |sats|
  {
    if |sats| > 0 {
      assert forall j :: 0 <= j < |imps| - 1 ==> Scale(imps, c)[1..][j] == Scale(imps[1..], c)[j];
      assert Scale(imps, c)[1..] == Scale(imps[1..], c);
      RawSumsScale(sats[1..], imps[1..], c);
    }
  }

  // ---------------------------------------------------------------- the score of a snapshot

  /** The importance sum the code tests against zero. */
  function ImportanceSum(s: Snapshot): real {
    NormImportance(Fields(s.importances))
  }

  /** weightedAverage as the code computes it: (weightedSum / importanceSum) · 100. */
  function WeightedAverage(s: Snapshot): real
    requires ImportanceSum(s) != 0.0
  {
    (NormWeighted(Fields(s.values), Fields(s.importances)) / ImportanceSum(s)) * 100.0
  }

  /** CalculateWeightedScore: 0 when the importances sum to 0, the squashed weighted average otherwise. */
  function CalculateWeightedScore(exp: real -> real, s: Snapshot): (r: real)
    requires IsExp(exp)
    ensures ImportanceSum(s) == 0.0 ==> r == 0.0
    ensures ImportanceSum(s) != 0.0 ==> 0.0 < r < 100.0
  {
    if ImportanceSum(s) == 0.0 then 0.0 else Logistic(exp, WeightedAverage(s))
  }

  /** If all six importances are 0 the score is exactly 0. */
  lemma NoImportanceScoresZero(exp: real -> real, s: Snapshot)
    requires IsExp(exp)
    requires s.importances == ZeroDims
    ensures CalculateWeightedScore(exp, s) == 0.0
  {
    assert ImportanceSum(s) == 0.0;
  }

  /** The normalised formula equals the plain ratio Σ imp·sat / Σ imp. */
  lemma AverageIsRatioOfRawSums(s: Snapshot)
    requires ImportanceSum(s) != 0.0
    ensures RawImportance(Fields(s.importances)) != 0.0
    ensures WeightedAverage(s) == RawWeighted(Fields(s.values), Fields(s.importances)) / RawImportance(Fields(s.importances))
  {
    var w := RawWeighted(Fields(s.values), Fields(s.importances));
    var i := RawImportance(Fields(s.importances));
    NormalisedSums(Fields(s.values), Fields(s.importances));
    assert (w / 10000.0) / (i / 100.0) * 100.0 == w / i;
  }

  /** Dimension `i` of `d` replaced by `v`. */
  function WithField(d: Dims, i: nat, v: real): (r: Dims)
    requires i < 6
    ensures Fields(r) == Fields(d)[i := v]
  {
    match i
    case 0 => d.(workload := v)
    case 1 => d.(compensation := v)
    case 2 => d.(growth := v)
    case 3 => d.(workEnvironment := v)
    case 4 => d.(workRelationships := v)
    case _ => d.(workValues := v)
  }

  /** A dimension with importance 0 contributes to neither sum, so its satisfaction cannot change the score. */
  lemma ZeroWeightIgnored(exp: real -> real, s: Snapshot, i: nat, v: real)
    requires IsExp(exp)
    requires i < 6 && Fields(s.importances)[i] == 0.0
    ensures CalculateWeightedScore(exp, s.(values := WithField(s.values, i, v))) == CalculateWeightedScore(exp, s)
  {
    var t := s.(values := WithField(s.values, i, v));
    if ImportanceSum(s) != 0.0 {
      RawWeightedUpdate(Fields(s.values), Fields(s.importances), i, v);
      AverageIsRatioOfRawSums(s);
      AverageIsRatioOfRawSums(t);
    }
  }

  /**
   * With non-negative importances summing above 0, the weighted average lies
   * between any bounds of the weighted dimensions' satisfactions, hence in
   * [0, 100] for satisfactions in [0, 100].
   */
  lemma AverageWithinBounds(s: Snapshot, lo: real, hi: real)
    requires Within(s.importances, 0.0, 100.0)
    requires ImportanceSum(s) != 0.0
    requires forall j :: 0 <= j < 6 && Fields(s.importances)[j] > 0.0 ==> lo <= Fields(s.values)[j] <= hi
    ensures lo <= WeightedAverage(s) <= hi
  {
    var sats, imps := Fields(s.values), Fields(s.importances);
    WithinFields(s.importances, 0.0, 100.0);
    RawWeightedLower(sats, imps, lo);
    RawWeightedUpper(sats, imps, hi);
    RawImportanceNonNegative(imps);
    AverageIsRatioOfRawSums(s);
    QuotientBounds(RawWeighted(sats, imps), RawImportance(imps), lo, hi);
  }

  lemma QuotientIncreasing(a: real, d: real, i: real)
    requires d > 0.0 && i > 0.0
    ensures a / i < (a + d) / i
  {
    assert (a + d) / i == a / i + d / i;
  }

  lemma QuotientBounds(w: real, i: real, lo: real, hi: real)
    requires i != 0.0 && i >= 0.0
    requires lo * i <= w <= hi * i
    ensures lo <= w / i <= hi
  {
    assert w / i * i == w;
  }

  /** For a snapshot within its table's constraints the weighted average is in [0, 100]. */
  lemma AverageInRange(s: Snapshot)
    requires SnapshotChecks(s)
    requires ImportanceSum(s) != 0.0
    ensures 0.0 <= WeightedAverage(s) <= 100.0
  {
    WithinFields(s.values, 0.0, 100.0);
    AverageWithinBounds(s, 0.0, 100.0);
  }

  function ScaleDims(d: Dims, c: real): (r: Dims)
    ensures Fields(r) == Scale(Fields(d), c)
  {
    var r := Dims(c * d.workload, c * d.compensation, c * d.growth,
                  c * d.workEnvironment, c * d.workRelationships, c * d.workValues);
    assert forall j :: 0 <= j < 6 ==> Fields(r)[j] == Scale(Fields(d), c)[j];
    r
  }

  /** Scaling all importances by the same positive factor leaves the weighted average unchanged. */
  lemma AverageScaleInvariant(s: Snapshot, c: real)
    requires c > 0.0
    requires ImportanceSum(s) != 0.0
    ensures ImportanceSum(s.(importances := ScaleDims(s.importances, c))) != 0.0
    ensures WeightedAverage(s.(importances := ScaleDims(s.importances, c))) == WeightedAverage(s)
  {
    var t := s.(importances := ScaleDims(s.importances, c));
    var sats, imps := Fields(s.values), Fields(s.importances);
    RawSumsScale(sats, imps, c);
    NormalisedSums(sats, imps);
    NormalisedSums(sats, Fields(t.importances));
    AverageIsRatioOfRawSums(s);
    var w, i := RawWeighted(sats, imps), RawImportance(imps);
    assert ImportanceSum(t) == c * i / 100.0;
    AverageIsRatioOfRawSums(t);
    assert (c * w) / (c * i) == w / i;
  }

  /** On sequences: raising a positively weighted entry strictly raises Σ imp·sat / Σ imp. */
  lemma RatioStrictlyIncreasing(sats: seq<real>, imps: seq<real>, i: nat, v: real, w: real)
    requires |sats| == |imps| && i < |imps|
    requires forall j :: 0 <= j < |imps| ==> imps[j] >= 0.0
    requires imps[i] > 0.0 && v < w
    ensures RawImportance(imps) > 0.0
    ensures RawWeighted(sats[i := v], imps) / RawImportance(imps) < RawWeighted(sats[i := w], imps) / RawImportance(imps)
  {
    RawImportancePositive(imps, i);
    RaisedSum(sats, imps, i, v, w);
    RaiseRaisesQuotient(RawWeighted(sats[i := v], imps), RawWeighted(sats[i := w], imps), imps[i], v, w, RawImportance(imps));
  }

  /** Moving entry i from v to w moves Σ imp·sat by imp_i·(w - v). */
  lemma RaisedSum(sats: seq<real>, imps: seq<real>, i: nat, v: real, w: real)
    requires |sats| == |imps| && i < |imps|
    ensures RawWeighted(sats[i := w], imps) == RawWeighted(sats[i := v], imps) + imps[i] * (w - v)
  {
    var lower := sats[i := v];
    RawWeightedUpdate(lower, imps, i, w);
    assert lower[i := w] == sats[i := w];
    assert lower[i] == v;
  }

  /** Adding imp·(w - v) > 0 to a numerator over a positive denominator raises the quotient. */
  lemma RaiseRaisesQuotient(base: real, high: real, imp: real, v: real, w: real, total: real)
    requires imp > 0.0 && v < w && total > 0.0
    requires high == base + imp * (w - v)
    ensures base / total < high / total
  {
    MulPositive(imp, w - v);
    QuotientIncreasing(base, imp * (w - v), total);
  }

  /** Raising one satisfaction whose importance is positive, others fixed, strictly raises the weighted average. */
  lemma AverageStrictlyIncreasing(s: Snapshot, i: nat, v: real, w: real)
    requires Within(s.importances, 0.0, 100.0)
    requires i < 6 && Fields(s.importances)[i] > 0.0
    requires v < w
    ensures ImportanceSum(s) != 0.0
    ensures WeightedAverage(s.(values := WithField(s.values, i, v)))
          < WeightedAverage(s.(values := WithField(s.values, i, w)))
  {
    var imps := Fields(s.importances);
    WithinFields(s.importances, 0.0, 100.0);
    RatioStrictlyIncreasing(Fields(s.values), imps, i, v, w);
    NormalisedSums(Fields(s.values), imps);
    AverageIsRatioOfRawSums(s.(values := WithField(s.values, i, v)));
    AverageIsRatioOfRawSums(s.(values := WithField(s.values, i, w)));
  }

  /**
   * Raising one satisfaction whose importance is positive, others fixed,
   * strictly raises the score (importances non-negative).
   */
  lemma ScoreStrictlyIncreasing(exp: real -> real, s: Snapshot, i: nat, v: real, w: real)
    requires IsExp(exp)
    requires Within(s.importances, 0.0, 100.0)
    requires i < 6 && Fields(s.importances)[i] > 0.0
    requires v < w
    ensures CalculateWeightedScore(exp, s.(values := WithField(s.values, i, v)))
          < CalculateWeightedScore(exp, s.(values := WithField(s.values, i, w)))
  {
    var sv := s.(values := WithField(s.values, i, v));
    var sw := s.(values := WithField(s.values, i, w));
    AverageStrictlyIncreasing(s, i, v, w);
    assert ImportanceSum(sv) == ImportanceSum(sw) == ImportanceSum(s);
    LogisticStrictlyIncreasing(exp, WeightedAverage(sv), WeightedAverage(sw));
  }

  /** Non-negative weights with one positive entry have a positive sum. */
  lemma {:induction false} RawImportancePositive(imps: seq<real>, i: nat)
    requires i < |imps| && imps[i] > 0.0
    requires forall j :: 0 <= j < |imps| ==> imps[j] >= 0.0
    ensures RawImportance(imps) > 0.0
    decreases |imps|
  {
    if i > 0 {
      RawImportancePositive(imps[1..], i - 1);
    } else {
      RawImportanceNonNegative(imps[1..]);
    }
  }

  lemma {:induction false} UnweightedSumsZero(sats: seq<real>, imps: seq<real>)
    requires |sats| == |imps|
    requires forall j :: 0 <= j < |imps| ==> imps[j] == 0.0
    ensures RawWeighted(sats, imps) == 0.0 && RawImportance(imps) == 0.0
    decreases |sats|
  {
    if |sats| > 0 {
      UnweightedSumsZero(sats[1..], imps[1..]);
    }
  }

  /** Worked case: only workload weighted, workload 80, so the average is 80 whatever the rest hold. */
  lemma OnlyWorkloadWeighted(exp: real -> real, s: Snapshot)
    requires IsExp(exp)
    requires s.importances == Dims(100.0, 0.0, 0.0, 0.0, 0.0, 0.0)
    requires s.values.workload == 80.0
    ensures ImportanceSum(s) != 0.0 && WeightedAverage(s) == 80.0
    ensures CalculateWeightedScore(exp, s) == Logistic(exp, 80.0)
  {
    var sats, imps := Fields(s.values), Fields(s.importances);
    UnweightedSumsZero(sats[1..], imps[1..]);
    AverageIsRatioOfRawSums(s);
  }
}
