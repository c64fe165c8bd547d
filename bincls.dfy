/** Fold report aggregator for binary classification.

    One confusion matrix is kept per cross-validation fold, flattened as
    [tp, fp, fn, tn] = [cm[0][0], cm[0][1], cm[1][0], cm[1][1]]. Row 0 is the
    positive ("bad") class, so tp + fp is the positive row total and tp + fn
    the positive column total. Counts are naturals and all ratios are exact
    reals.
 */
module BinCls {

  /** One fold's confusion matrix, flattened row by row. */
  datatype Fold = Fold(tp: nat, fp: nat, fn: nat, tn: nat)

  /** The eight quantities reported for one fold, their sums or their averages. */
  datatype Metrics = Metrics(
    positivePrecision: real, positiveRecall: real,
    negativePrecision: real, negativeRecall: real,
    positiveF1: real, negativeF1: real,
    weightF1: real, acc: real)

  /** Selects one of the eight quantities of a Metrics value. */
  datatype Field =
    | PositivePrecision | PositiveRecall | NegativePrecision | NegativeRecall
    | PositiveF1 | NegativeF1 | WeightF1 | Acc

  function Get(m: Metrics, k: Field): real {
    match k
    case PositivePrecision => m.positivePrecision
    case PositiveRecall => m.positiveRecall
    case NegativePrecision => m.negativePrecision
    case NegativeRecall => m.negativeRecall
    case PositiveF1 => m.positiveF1
    case NegativeF1 => m.negativeF1
    case WeightF1 => m.weightF1
    case Acc => m.acc
  }

  predicate InUnit(x: real) { 0.0 <= x <= 1.0 }

  /** Every one of the eight quantities lies in [0, n]. */
  predicate Bounded(m: Metrics, n: real) {
    0.0 <= m.positivePrecision <= n && 0.0 <= m.positiveRecall <= n &&
    0.0 <= m.negativePrecision <= n && 0.0 <= m.negativeRecall <= n &&
    0.0 <= m.positiveF1 <= n && 0.0 <= m.negativeF1 <= n &&
    0.0 <= m.weightF1 <= n && 0.0 <= m.acc <= n
  }

  function Min(x: real, y: real): real { if x <= y then x else y }
  function Max(x: real, y: real): real { if x <= y then y else x }

  const Zero := Metrics(0.0, 0.0, 0.0, 0.0, 0.0, 0.0, 0.0, 0.0)
  const Ones := Metrics(1.0, 1.0, 1.0, 1.0, 1.0, 1.0, 1.0, 1.0)

  function Add(a: Metrics, b: Metrics): Metrics {
    Metrics(
      a.positivePrecision + b.positivePrecision, a.positiveRecall + b.positiveRecall,
      a.negativePrecision + b.negativePrecision, a.negativeRecall + b.negativeRecall,
      a.positiveF1 + b.positiveF1, a.negativeF1 + b.negativeF1,
      a.weightF1 + b.weightF1, a.acc + b.acc)
  }

  function Scale(m: Metrics, k: real): Metrics {
    Metrics(
      k * m.positivePrecision, k * m.positiveRecall,
      k * m.negativePrecision, k * m.negativeRecall,
      k * m.positiveF1, k * m.negativeF1,
      k * m.weightF1, k * m.acc)
  }

  /** Each quantity divided by n, as the final averaging step does. */
  function Divide(m: Metrics, n: real): Metrics
    requires n != 0.0
  {
    Metrics(
      m.positivePrecision / n, m.positiveRecall / n,
      m.negativePrecision / n, m.negativeRecall / n,
      m.positiveF1 / n, m.negativeF1 / n,
      m.weightF1 / n, m.acc / n)
  }

  // ---------------------------------------------------------------------
  // Per-fold formulas

  function PositiveTotal(f: Fold): nat { f.tp + f.fp }
  function NegativeTotal(f: Fold): nat { f.fn + f.tn }
  function Total(f: Fold): nat { PositiveTotal(f) + NegativeTotal(f) }
  function PositivePred(f: Fold): nat { f.tp + f.fn }
  function NegativePred(f: Fold): nat { f.fp + f.tn }

  /** a / b for a count a out of b: a fraction in [0, 1]. */
  function Ratio(a: nat, b: nat): (r: real)
    requires 0 < b && a <= b
    ensures InUnit(r)
  {
    var r := a as real / b as real;
    assert r * (b as real) == a as real;
    MulMonotone(r, 1.0, b as real);
    r
  }

  /** A ratio is 0 exactly when the count is 0, and 1 exactly when the count
      is the whole total. */
  lemma RatioExtremes(a: nat, b: nat)
    requires 0 < b && a <= b
    ensures Ratio(a, b) == 0.0 <==> a == 0
    ensures Ratio(a, b) == 1.0 <==> a == b
  {
    var r := Ratio(a, b);
    assert r * (b as real) == a as real;
  }

  /** A positive count over a total is a positive quotient. */
  lemma RatioPositive(a: nat, b: nat)
    requires 0 < a <= b
    ensures 0.0 < a as real / b as real == Ratio(a, b)
  {
  }

  lemma MulMonotone(x: real, y: real, z: real)
    requires 0.0 <= z
    ensures x <= y ==> x * z <= y * z
    ensures 0.0 < z && x * z <= y * z ==> x <= y
  {
  }

  /** The harmonic mean 2pr / (p + r): pp and pr combined into the F1 score. */
  function F1(p: real, r: real): (f: real)
    requires InUnit(p) && InUnit(r) && p + r != 0.0
    ensures InUnit(f)
  {
    HarmonicMeanBounds(p, r);
    (2.0 * p * r) / (p + r)
  }

  /** F1 is the source's expression 2pr / (p + r). */
  lemma F1Expression(p: real, r: real)
    requires InUnit(p) && InUnit(r) && p + r != 0.0
    ensures F1(p, r) == (2.0 * p * r) / (p + r)
  {
  }

  lemma HarmonicMeanBounds(p: real, r: real)
    requires InUnit(p) && InUnit(r) && p + r != 0.0
    ensures Min(p, r) <= (2.0 * p * r) / (p + r) <= Max(p, r)
  {
    var s := p + r;
    var f := (2.0 * p * r) / s;
    var lo, hi := Min(p, r), Max(p, r);
    var prod := lo * hi;
    assert prod == p * r;
    assert f * s == 2.0 * prod;
    MulMonotone(lo, hi, lo);
    MulMonotone(lo, hi, hi);
    assert lo * s == lo * lo + prod;
    assert hi * s == prod + hi * hi;
    MulMonotone(lo, f, s);
    MulMonotone(f, hi, s);
  }

  /** The support-weighted combination of the two classes' F1 scores: a
      convex combination, so it lies between them. */
  function WeightedF1(positiveTotal: nat, negativeTotal: nat, positiveF1: real, negativeF1: real): (w: real)
    requires positiveTotal + negativeTotal > 0
    requires InUnit(positiveF1) && InUnit(negativeF1)
    ensures InUnit(w)
  {
    var total := positiveTotal + negativeTotal;
    var wp := Ratio(positiveTotal, total);
    var wn := Ratio(negativeTotal, total);
    WeightsSumToOne(positiveTotal, negativeTotal);
    ConvexCombination(wp, wn, positiveF1, negativeF1);
    (positiveTotal as real / total as real) * positiveF1 + (negativeTotal as real / total as real) * negativeF1
  }

  /** The weighted F1 lies between the two class F1 scores. */
  lemma WeightedF1Between(positiveTotal: nat, negativeTotal: nat, positiveF1: real, negativeF1: real)
    requires positiveTotal + negativeTotal > 0
    requires InUnit(positiveF1) && InUnit(negativeF1)
    ensures Min(positiveF1, negativeF1) <= WeightedF1(positiveTotal, negativeTotal, positiveF1, negativeF1)
    ensures WeightedF1(positiveTotal, negativeTotal, positiveF1, negativeF1) <= Max(positiveF1, negativeF1)
  {
    var total := positiveTotal + negativeTotal;
    WeightsSumToOne(positiveTotal, negativeTotal);
    ConvexCombination(Ratio(positiveTotal, total), Ratio(negativeTotal, total), positiveF1, negativeF1);
  }

  lemma ConvexCombination(wp: real, wn: real, x: real, y: real)
    requires 0.0 <= wp && 0.0 <= wn && wp + wn == 1.0
    ensures Min(x, y) <= wp * x + wn * y <= Max(x, y)
  {
    if x <= y {
      Between(wp, wn, x, y);
    } else {
      Between(wn, wp, y, x);
    }
  }

  /** With nonnegative weights summing to 1, lo <= wl lo + wh hi <= hi. */
  lemma Between(wl: real, wh: real, lo: real, hi: real)
    requires 0.0 <= wl && 0.0 <= wh && wl + wh == 1.0 && lo <= hi
    ensures lo <= wl * lo + wh * hi <= hi
  {
    assert wl * lo + wh * lo == lo by { Distribute(wl, wh, lo); }
    assert wl * hi + wh * hi == hi by { Distribute(wl, wh, hi); }
    assert wh * lo <= wh * hi by { MulMonotone(lo, hi, wh); }
    assert wl * lo <= wl * hi by { MulMonotone(lo, hi, wl); }
  }

  lemma WeightsSumToOne(a: nat, b: nat)
    requires a + b > 0
    ensures a as real / (a + b) as real + b as real / (a + b) as real == 1.0
  {
    var t := (a + b) as real;
    var wp, wn := a as real / t, b as real / t;
    assert wp * t == a as real;
    assert wn * t == b as real;
    Distribute(wp, wn, t);
    Cancel(wp + wn, 1.0, t);
  }

  lemma Distribute(x: real, y: real, t: real)
    ensures (x + y) * t == x * t + y * t
    ensures x + y == 1.0 ==> x * t + y * t == t
  {
  }

  lemma Cancel(x: real, y: real, t: real)
    requires t > 0.0 && x * t == y * t
    ensures x == y
  {
    MulMonotone(x, y, t);
    MulMonotone(y, x, t);
  }

  /** Every denominator of the per-fold formulas is nonzero: the four row and
      column totals, and pp + pr and np + nr under the two F1 scores, which
      with those totals positive are nonzero exactly when tp and tn are (see
      DenominatorsNonzero). */
  predicate Defined(f: Fold) {
    PositivePred(f) > 0 && PositiveTotal(f) > 0 &&
    NegativePred(f) > 0 && NegativeTotal(f) > 0 &&
    f.tp > 0 && f.tn > 0
  }

  /** Defined says exactly that the six divisions of the loop body are by
      nonzero values. */
  lemma DenominatorsNonzero(f: Fold)
    ensures Defined(f) <==>
      PositivePred(f) > 0 && PositiveTotal(f) > 0 &&
      NegativePred(f) > 0 && NegativeTotal(f) > 0 &&
      Ratio(f.tp, PositivePred(f)) + Ratio(f.tp, PositiveTotal(f)) != 0.0 &&
      Ratio(f.tn, NegativePred(f)) + Ratio(f.tn, NegativeTotal(f)) != 0.0
    ensures Defined(f) <==> f.tp > 0 && f.tn > 0
  {
    if PositivePred(f) > 0 && PositiveTotal(f) > 0 {
      RatioExtremes(f.tp, PositivePred(f));
      RatioExtremes(f.tp, PositiveTotal(f));
    }
    if NegativePred(f) > 0 && NegativeTotal(f) > 0 {
      RatioExtremes(f.tn, NegativePred(f));
      RatioExtremes(f.tn, NegativeTotal(f));
    }
  }

  /** The formulas of one fold, in the order the loop body computes them. */
  function FoldMetrics(f: Fold): (m: Metrics)
    requires Defined(f)
    ensures Bounded(m, 1.0)
  {
    var pp := Ratio(f.tp, PositivePred(f));
    var pr := Ratio(f.tp, PositiveTotal(f));
    var np := Ratio(f.tn, NegativePred(f));
    var nr := Ratio(f.tn, NegativeTotal(f));
    var positiveF1 := F1(pp, pr);
    var negativeF1 := F1(np, nr);
    Metrics(pp, pr, np, nr, positiveF1, negativeF1,
            WeightedF1(PositiveTotal(f), NegativeTotal(f), positiveF1, negativeF1),
            Ratio(f.tp + f.tn, Total(f)))
  }

  /** A fold with no misclassification scores 1 on every quantity. */
  lemma PerfectFold(f: Fold)
    requires f.fp == 0 && f.fn == 0 && f.tp > 0 && f.tn > 0
    ensures Defined(f) && FoldMetrics(f) == Ones
  {
    var pp := Ratio(f.tp, PositivePred(f));
    var pr := Ratio(f.tp, PositiveTotal(f));
    var np := Ratio(f.tn, NegativePred(f));
    var nr := Ratio(f.tn, NegativeTotal(f));
    var acc := Ratio(f.tp + f.tn, Total(f));
    assert pp == 1.0 && pr == 1.0 by { RatioExtremes(f.tp, f.tp); }
    assert np == 1.0 && nr == 1.0 by { RatioExtremes(f.tn, f.tn); }
    assert acc == 1.0 by { RatioExtremes(f.tp + f.tn, f.tp + f.tn); }
    var w := WeightedF1(PositiveTotal(f), NegativeTotal(f), F1(pp, pr), F1(np, nr));
    assert F1(pp, pr) == 1.0 && F1(np, nr) == 1.0;
    assert w == 1.0 by { WeightedF1Between(PositiveTotal(f), NegativeTotal(f), 1.0, 1.0); }
    assert FoldMetrics(f) == Metrics(pp, pr, np, nr, F1(pp, pr), F1(np, nr), w, acc);
  }

  /** The fold [8, 2, 3, 7]: positive row total 10, positive column total 11,
      so precision 8/11 and recall 8/10; both class weights are 10/20. */
  lemma ExampleFold()
    ensures Defined(Fold(8, 2, 3, 7))
    ensures FoldMetrics(Fold(8, 2, 3, 7)) ==
      Metrics(8.0 / 11.0, 0.8, 7.0 / 9.0, 0.7, 16.0 / 21.0, 14.0 / 19.0, 299.0 / 399.0, 0.75)
    ensures Score(FoldMetrics(Fold(8, 2, 3, 7))) == 0.48 + 0.4 * (299.0 / 399.0)
  {
    var f := Fold(8, 2, 3, 7);
    assert Ratio(8, 11) == 8.0 / 11.0 && Ratio(8, 10) == 0.8;
    assert Ratio(7, 9) == 7.0 / 9.0 && Ratio(7, 10) == 0.7;
    assert Ratio(15, 20) == 0.75;
    assert F1(8.0 / 11.0, 0.8) == 16.0 / 21.0;
    assert F1(7.0 / 9.0, 0.7) == 14.0 / 19.0;
    assert WeightedF1(10, 10, 16.0 / 21.0, 14.0 / 19.0) == 299.0 / 399.0;
  }

  // ---------------------------------------------------------------------
  // Sums and averages over folds

  predicate AllDefined(folds: seq<Fold>) {
    forall k :: 0 <= k < |folds| ==> Defined(folds[k])
  }

  /** The eight running sums after the loop has visited every fold, in order. */
  function Sum(folds: seq<Fold>): (m: Metrics)
    requires AllDefined(folds)
    ensures Bounded(m, |folds| as real)
  {
    if folds == [] then Zero
    else Add(Sum(folds[..|folds| - 1]), FoldMetrics(folds[|folds| - 1]))
  }

  /** The eight averages: each sum divided by the number of folds. */
  function Mean(folds: seq<Fold>): (m: Metrics)
    requires |folds| > 0 && AllDefined(folds)
    ensures Bounded(m, 1.0)
  {
    var n := |folds| as real;
    var s := Sum(folds);
    BoundedDivide(s, n);
    Divide(s, n)
  }

  /** The composite score: 0.6 of the positive recall plus 0.4 of the weighted F1. */
  function Score(m: Metrics): (r: real)
    requires Bounded(m, 1.0)
    ensures InUnit(r)
    ensures r == 1.0 <==> m.positiveRecall == 1.0 && m.weightF1 == 1.0
  {
    0.6 * m.positiveRecall + 0.4 * m.weightF1
  }

  lemma BoundedDivide(m: Metrics, n: real)
    requires n > 0.0 && Bounded(m, n)
    ensures Bounded(Divide(m, n), 1.0)
  {
    FractionInUnit(m.positivePrecision, n);
    FractionInUnit(m.positiveRecall, n);
    FractionInUnit(m.negativePrecision, n);
    FractionInUnit(m.negativeRecall, n);
    FractionInUnit(m.positiveF1, n);
    FractionInUnit(m.negativeF1, n);
    FractionInUnit(m.weightF1, n);
    FractionInUnit(m.acc, n);
  }

  lemma FractionInUnit(x: real, n: real)
    requires 0.0 <= x <= n && n > 0.0
    ensures InUnit(x / n)
  {
    assert x / n * n == x;
  }

  // ---------------------------------------------------------------------
  // Laws of the averaging

  /** An independent, front-to-back sum of one quantity over the folds. */
  function FieldSum(folds: seq<Fold>, k: Field): real
    requires AllDefined(folds)
  {
    if folds == [] then 0.0
    else Get(FoldMetrics(folds[0]), k) + FieldSum(folds[1..], k)
  }

  /** One more iteration of the loop adds the next fold's quantities. */
  lemma SumSnoc(folds: seq<Fold>, i: nat)
    requires i < |folds| && AllDefined(folds)
    ensures AllDefined(folds[..i]) && AllDefined(folds[..i + 1]) && Defined(folds[i])
    ensures Sum(folds[..i + 1]) == Add(Sum(folds[..i]), FoldMetrics(folds[i]))
  {
    assert folds[..i + 1][..i] == folds[..i];
  }

  lemma AddAssociative(p: Metrics, q: Metrics, r: Metrics)
    ensures Add(Add(p, q), r) == Add(p, Add(q, r))
  {
  }

  lemma AllDefinedConcat(a: seq<Fold>, b: seq<Fold>)
    requires AllDefined(a) && AllDefined(b)
    ensures AllDefined(a + b)
  {
    forall k | 0 <= k < |a + b| ensures Defined((a + b)[k]) {
      if k < |a| { assert (a + b)[k] == a[k]; } else { assert (a + b)[k] == b[k - |a|]; }
    }
  }

  lemma {:induction false} SumConcat(a: seq<Fold>, b: seq<Fold>)
    requires AllDefined(a) && AllDefined(b)
    ensures AllDefined(a + b)
    ensures Sum(a + b) == Add(Sum(a), Sum(b))
    decreases |b|
  {
    AllDefinedConcat(a, b);
    if b == [] {
      assert a + b == a;
    } else {
      var b', x := b[..|b| - 1], b[|b| - 1];
      assert (a + b)[..|a + b| - 1] == a + b';
      assert Sum(a + b) == Add(Sum(a + b'), FoldMetrics(x));
      assert Sum(b) == Add(Sum(b'), FoldMetrics(x));
      SumConcat(a, b');
      AddAssociative(Sum(a), Sum(b'), FoldMetrics(x));
    }
  }

  /** The i-th sum is the front-to-back sum of the i-th quantity. */
  lemma {:induction false} SumIsFieldSum(folds: seq<Fold>, k: Field)
    requires AllDefined(folds)
    ensures Get(Sum(folds), k) == FieldSum(folds, k)
    decreases |folds|
  {
    if folds != [] {
      var rest := folds[1..];
      assert folds == [folds[0]] + rest;
      SumConcat([folds[0]], rest);
      assert [folds[0]][..0] == [];
      SumIsFieldSum(rest, k);
    }
  }

  /** The score is 0.6 (sum of positive recalls) / n + 0.4 (sum of weighted F1) / n. */
  lemma ScoreFormula(folds: seq<Fold>)
    requires |folds| > 0 && AllDefined(folds)
    ensures Score(Mean(folds)) ==
      0.6 * (FieldSum(folds, PositiveRecall) / |folds| as real)
      + 0.4 * (FieldSum(folds, WeightF1) / |folds| as real)
  {
    SumIsFieldSum(folds, PositiveRecall);
    SumIsFieldSum(folds, WeightF1);
  }

  /** Reordering the folds changes none of the sums. */
  lemma {:induction false} SumPermutation(a: seq<Fold>, b: seq<Fold>)
    requires AllDefined(a) && multiset(a) == multiset(b)
    ensures AllDefined(b) && Sum(a) == Sum(b)
    decreases |a|
  {
    AllDefinedPermutation(a, b);
    if a != [] {
      var a', x := a[..|a| - 1], a[|a| - 1];
      assert a == a' + [x];
      assert x in multiset(b);
      var j :| 0 <= j < |b| && b[j] == x;
      var u, v := b[..j], b[j + 1..];
      RemoveOne(a', x, b, j);
      AllDefinedPermutation(a, a');
      SumPermutation(a', u + v);
      SumInsert(u, x, v);
      assert b == u + [x] + v;
    }
  }

  lemma AllDefinedPermutation(a: seq<Fold>, b: seq<Fold>)
    requires AllDefined(a) && multiset(b) <= multiset(a)
    ensures AllDefined(b)
  {
    forall k | 0 <= k < |b| ensures Defined(b[k]) {
      assert b[k] in multiset(b);
      assert b[k] in multiset(a);
    }
  }

  lemma RemoveOne(a': seq<Fold>, x: Fold, b: seq<Fold>, j: nat)
    requires j < |b| && b[j] == x && multiset(a' + [x]) == multiset(b)
    ensures b == b[..j] + [x] + b[j + 1..]
    ensures multiset(a') == multiset(b[..j] + b[j + 1..])
  {
    SplitAt(b, j);
    var rest := multiset(b[..j] + b[j + 1..]);
    assert multiset(a' + [x]) == multiset(a') + multiset{x};
    assert multiset(a') + multiset{x} == rest + multiset{x};
    MultisetCancel(multiset(a'), rest, x);
  }

  lemma SplitAt(b: seq<Fold>, j: nat)
    requires j < |b|
    ensures b == b[..j] + [b[j]] + b[j + 1..]
    ensures multiset(b) == multiset(b[..j] + b[j + 1..]) + multiset{b[j]}
  {
    var u, v := b[..j], b[j + 1..];
    assert b == b[..j] + b[j..] && b[j..] == [b[j]] + v;
    assert b == u + [b[j]] + v;
    assert multiset(b) == multiset(u) + multiset{b[j]} + multiset(v);
    assert multiset(u + v) == multiset(u) + multiset(v);
  }

  lemma MultisetCancel(p: multiset<Fold>, q: multiset<Fold>, x: Fold)
    requires p + multiset{x} == q + multiset{x}
    ensures p == q
  {
    assert p == (p + multiset{x}) - multiset{x};
    assert q == (q + multiset{x}) - multiset{x};
  }

  lemma SumInsert(u: seq<Fold>, x: Fold, v: seq<Fold>)
    requires AllDefined(u + [x] + v)
    ensures AllDefined(u) && AllDefined(v) && AllDefined(u + v) && Defined(x)
    ensures Sum(u + [x] + v) == Add(Sum(u + v), FoldMetrics(x))
  {
    var w := u + [x] + v;
    assert Defined(w[|u|]);
    assert AllDefined(u) by {
      forall k | 0 <= k < |u| ensures Defined(u[k]) { assert u[k] == w[k]; }
    }
    assert AllDefined(v) by {
      forall k | 0 <= k < |v| ensures Defined(v[k]) { assert v[k] == w[|u| + 1 + k]; }
    }
    SumConcat(u, v);
    SumConcat(u, [x]);
    assert [x][..0] == [];
    SumConcat(u + [x], v);
    AddAssociative(Sum(u), FoldMetrics(x), Sum(v));
    AddAssociative(Sum(u), Sum(v), FoldMetrics(x));
  }

  /** Reordering the folds changes none of the averages, hence not the score. */
  lemma MeanPermutation(a: seq<Fold>, b: seq<Fold>)
    requires |a| > 0 && AllDefined(a) && multiset(a) == multiset(b)
    ensures |b| > 0 && AllDefined(b)
    ensures Mean(a) == Mean(b) && Score(Mean(a)) == Score(Mean(b))
  {
    SumPermutation(a, b);
    assert |a| == |multiset(a)| == |multiset(b)| == |b|;
  }

  /** Listing every fold twice changes none of the averages, hence not the score. */
  lemma MeanDuplicate(folds: seq<Fold>)
    requires |folds| > 0 && AllDefined(folds)
    ensures AllDefined(folds + folds)
    ensures Mean(folds + folds) == Mean(folds)
    ensures Score(Mean(folds + folds)) == Score(Mean(folds))
  {
    SumConcat(folds, folds);
    var n := |folds| as real;
    var m := Sum(folds);
    assert |folds + folds| as real == 2.0 * n;
    assert Mean(folds + folds) == Divide(Add(m, m), 2.0 * n);
    DivideDouble(m, n);
  }

  lemma DivideDouble(m: Metrics, n: real)
    requires n > 0.0
    ensures Divide(Add(m, m), 2.0 * n) == Divide(m, n)
  {
    DoubleOverDouble(m.positivePrecision, n);
    DoubleOverDouble(m.positiveRecall, n);
    DoubleOverDouble(m.negativePrecision, n);
    DoubleOverDouble(m.negativeRecall, n);
    DoubleOverDouble(m.positiveF1, n);
    DoubleOverDouble(m.negativeF1, n);
    DoubleOverDouble(m.weightF1, n);
    DoubleOverDouble(m.acc, n);
  }

  lemma DoubleOverDouble(x: real, n: real)
    requires n > 0.0
    ensures (x + x) / (2.0 * n) == x / n
  {
    assert (x + x) / (2.0 * n) * (2.0 * n) == x + x;
    assert x / n * n == x;
  }

  /** When every fold is perfect, every average is 1 and so is the score. */
  lemma {:induction false} PerfectFolds(folds: seq<Fold>)
    requires |folds| > 0
    requires forall k :: 0 <= k < |folds| ==>
      folds[k].fp == 0 && folds[k].fn == 0 && folds[k].tp > 0 && folds[k].tn > 0
    ensures AllDefined(folds) && Mean(folds) == Ones && Score(Mean(folds)) == 1.0
  {
    forall k | 0 <= k < |folds| ensures Defined(folds[k]) && FoldMetrics(folds[k]) == Ones {
      PerfectFold(folds[k]);
    }
    PerfectSum(folds);
    var n := |folds| as real;
    assert Mean(folds) == Divide(Scale(Ones, n), n);
    SelfOverSelf(n);
  }

  lemma SelfOverSelf(n: real)
    requires n > 0.0
    ensures Divide(Scale(Ones, n), n) == Ones
  {
    assert n * 1.0 / n == 1.0;
  }

  lemma {:induction false} PerfectSum(folds: seq<Fold>)
    requires forall k :: 0 <= k < |folds| ==> Defined(folds[k]) && FoldMetrics(folds[k]) == Ones
    ensures AllDefined(folds) && Sum(folds) == Scale(Ones, |folds| as real)
    decreases |folds|
  {
    if folds != [] {
      PerfectSum(folds[..|folds| - 1]);
    }
  }

  // ---------------------------------------------------------------------
  // The aggregator object

  /** The loop body's per-fold computation, written with the raw divisions of
      the source: the five totals, then the eight quantities in the order the
      source computes them. They agree with the formulas of FoldMetrics. */
  method FoldFormulas(cm: Fold)
    returns (pp: real, pr: real, np: real, nr: real,
             positiveF1: real, negativeF1: real, weightF1: real, acc: real)
    requires Defined(cm)
    ensures Metrics(pp, pr, np, nr, positiveF1, negativeF1, weightF1, acc) == FoldMetrics(cm)
  {
    var positiveTotal := cm.tp + cm.fp;
    var negativeTotal := cm.fn + cm.tn;
    var total := positiveTotal + negativeTotal;
    var positivePred := cm.tp + cm.fn;
    var negativePred := cm.fp + cm.tn;
    pp, pr := cm.tp as real / positivePred as real, cm.tp as real / positiveTotal as real;
    np, nr := cm.tn as real / negativePred as real, cm.tn as real / negativeTotal as real;
    RatioPositive(cm.tp, positivePred);
    RatioPositive(cm.tp, positiveTotal);
    RatioPositive(cm.tn, negativePred);
    RatioPositive(cm.tn, negativeTotal);
    positiveF1 := (2.0 * pp * pr) / (pp + pr);
    negativeF1 := (2.0 * np * nr) / (np + nr);
    F1Expression(pp, pr);
    F1Expression(np, nr);
    weightF1 := (positiveTotal as real / total as real) * positiveF1 + (negativeTotal as real / total as real) * negativeF1;
    assert weightF1 == WeightedF1(positiveTotal, negativeTotal, positiveF1, negativeF1);
    acc := (cm.tp + cm.tn) as real / total as real;
    assert acc == Ratio(cm.tp + cm.tn, total);
  }

  class BinaryClassificationAverageReport {
    /** One flattened confusion matrix per fold, in the order they were added. */
    var accumCm: seq<Fold>
    var targetNames: seq<string>

    constructor (targetNames: seq<string>)
      ensures accumCm == [] && this.targetNames == targetNames
    {
      accumCm := [];
      this.targetNames := targetNames;
    }

    /** Appends cm, read as [cm[0][0], cm[0][1], cm[1][0], cm[1][1]]. */
    method CmAppend(cm: seq<seq<nat>>)
      requires |cm| >= 2 && |cm[0]| >= 2 && |cm[1]| >= 2
      modifies this
      ensures accumCm == old(accumCm) + [Fold(cm[0][0], cm[0][1], cm[1][0], cm[1][1])]
      ensures targetNames == old(targetNames)
    {
      var tp, fp, fn, tn := cm[0][0], cm[0][1], cm[1][0], cm[1][1];
      accumCm := accumCm + [Fold(tp, fp, fn, tn)];
    }

    /** Runs the loop over the folds with its eight accumulators; returns the
        eight averages. Shared by ObjectScore and AvgCmReport, which in the
        source each carry a copy of it. */
    method Averages() returns (m: Metrics)
      requires |accumCm| > 0 && AllDefined(accumCm)
      ensures m == Mean(accumCm)
    {
      var foldNum := |accumCm|;
      var avgPositivePrecision, avgNegativePrecision := 0.0, 0.0;
      var avgPositiveRecall, avgNegativeRecall := 0.0, 0.0;
      var avgPositiveF1, avgNegativeF1 := 0.0, 0.0;
      var avgWeightF1, avgAcc := 0.0, 0.0;
      var i := 0;
      while i < foldNum
        invariant 0 <= i <= foldNum
        invariant Metrics(avgPositivePrecision, avgPositiveRecall,
                          avgNegativePrecision, avgNegativeRecall,
                          avgPositiveF1, avgNegativeF1,
                          avgWeightF1, avgAcc) == Sum(accumCm[..i])
      {
        var pp, pr, np, nr, positiveF1, negativeF1, weightF1, acc := FoldFormulas(accumCm[i]);
        avgPositivePrecision := avgPositivePrecision + pp;
        avgPositiveRecall := avgPositiveRecall + pr;
        avgNegativePrecision := avgNegativePrecision + np;
        avgNegativeRecall := avgNegativeRecall + nr;
        avgPositiveF1 := avgPositiveF1 + positiveF1;
        avgNegativeF1 := avgNegativeF1 + negativeF1;
        avgWeightF1 := avgWeightF1 + weightF1;
        avgAcc := avgAcc + acc;
        SumSnoc(accumCm, i);
        i := i + 1;
      }
      assert accumCm[..foldNum] == accumCm;
      var n := foldNum as real;
      m := Metrics(avgPositivePrecision / n, avgPositiveRecall / n,
                   avgNegativePrecision / n, avgNegativeRecall / n,
                   avgPositiveF1 / n, avgNegativeF1 / n,
                   avgWeightF1 / n, avgAcc / n);
    }

    /** The composite score of the folds added so far. */
    method ObjectScore() returns (score: real)
      requires |accumCm| > 0 && AllDefined(accumCm)
      ensures score == Score(Mean(accumCm))
      ensures InUnit(score)
    {
      var m := Averages();
      score := Score(m);
    }

    /** The eight averages the report prints. */
    method AvgCmReport() returns (m: Metrics)
      requires |accumCm| > 0 && AllDefined(accumCm)
      ensures m == Mean(accumCm)
      ensures Bounded(m, 1.0)
    {
      m := Averages();
    }
  }
}
