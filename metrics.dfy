/**
 * Frame-level detection metrics (tools/metrics.py).
 *
 * A prediction or label tensor is seen the way the source's `view(-1, classes)` sees it:
 * a sequence of rows (frames), each holding one value per class. Predictions are the
 * values compared with 0.5; labels are the values compared with 1 and 0. All arithmetic
 * is exact (reals), and `Eps` is float32's machine epsilon, 2^-23.
 */
module Metrics {
  import opened Tensors

  type Matrix = seq<seq<real>>

  /** torch.finfo(torch.float32).eps, that is 2^-23. */
  const Eps: real := 0.00000011920928955078125

  /** The four mask values of one cell (or their sums over a set of cells). */
  datatype Confusion = Confusion(tp: real, tn: real, fp: real, fn: real)
  {
    function Plus(o: Confusion): Confusion {
      Confusion(tp + o.tp, tn + o.tn, fp + o.fp, fn + o.fn)
    }

    predicate NonNegative() {
      tp >= 0.0 && tn >= 0.0 && fp >= 0.0 && fn >= 0.0
    }

    function Weight(): real {
      tp + tn + fp + fn
    }
  }

  const Zero := Confusion(0.0, 0.0, 0.0, 0.0)

  function Max(a: real, b: real): real { if a >= b then a else b }

  /** `clamp_min(0)` */
  function ClampMin0(a: real): real { if a < 0.0 then 0.0 else a }

  predicate SameShape(a: Matrix, b: Matrix) {
    |a| == |b| && forall i :: 0 <= i < |a| ==> |a[i]| == |b[i]|
  }

  /** Every label is exactly 0 or exactly 1. */
  predicate BinaryLabels(y: Matrix) {
    forall i, j :: 0 <= i < |y| && 0 <= j < |y[i]| ==> y[i][j] == 0.0 || y[i][j] == 1.0
  }

  /** Number of cells of a matrix. */
  function CellCount(m: Matrix): nat {
    if m == [] then 0 else |m[0]| + CellCount(m[1..])
  }

  function SumReals(s: seq<real>): real {
    if s == [] then 0.0 else s[0] + SumReals(s[1..])
  }

  /** `y_true.sum()` over the whole tensor. */
  function LabelSum(y: Matrix): real {
    if y == [] then 0.0 else SumReals(y[0]) + LabelSum(y[1..])
  }

  const TruePositive := Confusion(1.0, 0.0, 0.0, 0.0)
  const TrueNegative := Confusion(0.0, 1.0, 0.0, 0.0)
  const FalsePositive := Confusion(0.0, 0.0, 1.0, 0.0)
  const FalseNegative := Confusion(0.0, 0.0, 0.0, 1.0)

  /**
   * What one cell contributes to the TP, TN, FP and FN masks. The prediction is positive
   * when `ge(0.5)` and negative when `lt(0.5)`, so always exactly one of the two; the label
   * is positive only when it equals 1 and negative only when it equals 0, and any other
   * label contributes to none of the four masks.
   */
  function CellConfusion(h: real, t: real): (c: Confusion)
    ensures c.NonNegative()
    ensures t == 1.0 ==> c == (if h >= 0.5 then TruePositive else FalseNegative)
    ensures t == 0.0 ==> c == (if h < 0.5 then TrueNegative else FalsePositive)
    ensures t != 0.0 && t != 1.0 ==> c == Zero
  {
    var predPositive, predNegative := h >= 0.5, h < 0.5;
    var labelPositive, labelNegative := t == 1.0, t == 0.0;
    if predPositive && labelPositive then TruePositive
    else if predNegative && labelNegative then TrueNegative
    else if predPositive && labelNegative then FalsePositive
    else if predNegative && labelPositive then FalseNegative
    else Zero
  }

  /** Masks of one row. */
  function MaskRow(h: seq<real>, t: seq<real>): (r: seq<Confusion>)
    requires |h| == |t|
    ensures |r| == |h|
  {
    seq(|h|, j requires 0 <= j < |h| => CellConfusion(h[j], t[j]))
  }

  /** `_tp_tf_fp_fn(y_hat, y_true, None)`: the four masks, unreduced, one `Confusion` per cell. */
  function TpTnFpFn(yHat: Matrix, yTrue: Matrix): (m: seq<seq<Confusion>>)
    requires SameShape(yHat, yTrue)
    ensures |m| == |yHat|
    ensures forall i :: 0 <= i < |m| ==>
              |m[i]| == |yHat[i]| &&
              forall j :: 0 <= j < |m[i]| ==> m[i][j] == CellConfusion(yHat[i][j], yTrue[i][j])
  {
    seq(|yHat|, i requires 0 <= i < |yHat| => MaskRow(yHat[i], yTrue[i]))
  }

  /** Sum of a sequence of mask values. */
  function Sum(s: seq<Confusion>): Confusion {
    if s == [] then Zero else s[0].Plus(Sum(s[1..]))
  }

  /** `sum(dim=-1)`: one total per row (`dim_sum=-1`). */
  function SumLastDim(m: seq<seq<Confusion>>): (r: seq<Confusion>)
    ensures |r| == |m|
  {
    seq(|m|, i requires 0 <= i < |m| => Sum(m[i]))
  }

  /** `.sum()` over the whole tensor (`dim_sum=None`, then `sum()`). */
  function SumAll(m: seq<seq<Confusion>>): Confusion {
    if m == [] then Zero else Sum(m[0]).Plus(SumAll(m[1..]))
  }

  /** Corpus totals of the masks. */
  function Totals(yHat: Matrix, yTrue: Matrix): Confusion
    requires SameShape(yHat, yTrue)
  {
    SumAll(TpTnFpFn(yHat, yTrue))
  }

  /** Totals of one row. */
  function RowTotal(h: seq<real>, t: seq<real>): Confusion
    requires |h| == |t|
  {
    Sum(MaskRow(h, t))
  }

  /** Per-row totals of the masks (what `error_rate_per_frame` counts with). */
  function RowTotals(yHat: Matrix, yTrue: Matrix): seq<Confusion>
    requires SameShape(yHat, yTrue)
  {
    SumLastDim(TpTnFpFn(yHat, yTrue))
  }

  lemma {:induction false} RowTotalCons(h: seq<real>, t: seq<real>)
    requires |h| == |t| && h != []
    ensures RowTotal(h, t) == CellConfusion(h[0], t[0]).Plus(RowTotal(h[1..], t[1..]))
  {
    var m := MaskRow(h, t);
    assert m[0] == CellConfusion(h[0], t[0]);
    assert m[1..] == MaskRow(h[1..], t[1..]);
    assert Sum(m) == m[0].Plus(Sum(m[1..]));
  }

  lemma {:induction false} TotalsCons(yHat: Matrix, yTrue: Matrix)
    requires SameShape(yHat, yTrue) && yHat != []
    ensures Totals(yHat, yTrue) == RowTotal(yHat[0], yTrue[0]).Plus(Totals(yHat[1..], yTrue[1..]))
  {
    assert TpTnFpFn(yHat, yTrue)[1..] == TpTnFpFn(yHat[1..], yTrue[1..]);
  }

  lemma {:induction false} RowTotalNonNegative(h: seq<real>, t: seq<real>)
    requires |h| == |t|
    ensures RowTotal(h, t).NonNegative()
  {
    if h != [] {
      RowTotalCons(h, t);
      RowTotalNonNegative(h[1..], t[1..]);
    }
  }

  lemma {:induction false} TotalsNonNegative(yHat: Matrix, yTrue: Matrix)
    requires SameShape(yHat, yTrue)
    ensures Totals(yHat, yTrue).NonNegative()
  {
    if yHat != [] {
      TotalsCons(yHat, yTrue);
      RowTotalNonNegative(yHat[0], yTrue[0]);
      TotalsNonNegative(yHat[1..], yTrue[1..]);
    }
  }

  /**
   * `_f1`: 0 when tp, fp and fn are all zero, otherwise 2tp / (2tp + fn + fp + eps).
   * Its arguments are always sums of 0/1 masks, hence non-negative.
   */
  function F1(tp: real, fp: real, fn: real): (r: real)
    requires tp >= 0.0 && fp >= 0.0 && fn >= 0.0
    ensures tp == 0.0 && fp == 0.0 && fn == 0.0 ==> r == 0.0
    ensures 0.0 <= r < 1.0
    ensures r == 0.0 <==> tp == 0.0
  {
    if tp == 0.0 && fp == 0.0 && fn == 0.0 then 0.0
    else
      var nominator := 2.0 * tp;
      var denominator := 2.0 * tp + fn + fp;
      assert nominator < denominator + Eps;
      nominator / (denominator + Eps)
  }

  /**
   * `f1_per_frame`: F1 of the counts summed over the whole tensor. It lies in [0, 1), and is 0
   * exactly when no cell is predicted positive with label 1 (this covers the all-zero-counts
   * case, which returns 0 rather than NaN).
   */
  function F1PerFrame(yHat: Matrix, yTrue: Matrix): (r: real)
    requires SameShape(yHat, yTrue)
    ensures 0.0 <= r < 1.0
    ensures r == 0.0 <==>
            forall i, j :: 0 <= i < |yHat| && 0 <= j < |yHat[i]| ==> !Hit(yHat[i][j], yTrue[i][j])
  {
    TotalsNonNegative(yHat, yTrue);
    NoTruePositive(yHat, yTrue);
    var c := Totals(yHat, yTrue);
    F1(c.tp, c.fp, c.fn)
  }

  /** `fn.min(fp)` of one row. */
  function Substitutions(c: Confusion): real { Min(c.fn, c.fp) }

  /** `fn.sub(fp).clamp_min(0)` of one row. */
  function Deletions(c: Confusion): real { ClampMin0(c.fn - c.fp) }

  /** `fp.sub(fn).clamp_min(0)` of one row. */
  function Insertions(c: Confusion): real { ClampMin0(c.fp - c.fn) }

  /** Sum of `f` over a sequence of row totals. */
  function SumOf(rows: seq<Confusion>, f: Confusion -> real): real {
    if rows == [] then 0.0 else f(rows[0]) + SumOf(rows[1..], f)
  }

  /**
   * `error_rate_per_frame`: with fp and fn counted per row, substitutions min(fn, fp),
   * deletions max(fn - fp, 0) and insertions max(fp - fn, 0), summed over rows and divided
   * by the sum of all labels plus eps. A zero denominator (an inf or NaN in torch) is
   * outside the model.
   *
   * Per row, min(fn, fp) + max(fn - fp, 0) + max(fp - fn, 0) is max(fp, fn): the error rate
   * is the sum over rows of max(fp, fn), fp and fn counted across the classes of the row,
   * over the label sum plus eps.
   */
  function ErrorRatePerFrame(yHat: Matrix, yTrue: Matrix): (r: real)
    requires SameShape(yHat, yTrue)
    requires LabelSum(yTrue) + Eps != 0.0
    ensures r == SumOf(RowTotals(yHat, yTrue), RowErrors) / (LabelSum(yTrue) + Eps)
  {
    ErrorNumerator(RowTotals(yHat, yTrue));
    var rows := RowTotals(yHat, yTrue);
    var s := SumOf(rows, Substitutions);
    var d := SumOf(rows, Deletions);
    var i := SumOf(rows, Insertions);
    var n := LabelSum(yTrue) + Eps;
    (s + d + i) / n
  }

  /** The cell is a true positive: predicted positive and labelled exactly 1. */
  predicate Hit(h: real, t: real) {
    h >= 0.5 && t == 1.0
  }

  /** Every label of the row is exactly 0 or exactly 1. */
  predicate BinaryRow(t: seq<real>) {
    forall j :: 0 <= j < |t| ==> t[j] == 0.0 || t[j] == 1.0
  }

  lemma CellWeight(h: real, t: real)
    ensures CellConfusion(h, t).Weight() <= 1.0
    ensures t == 0.0 || t == 1.0 ==> CellConfusion(h, t).Weight() == 1.0
  {
  }

  lemma PlusWeight(a: Confusion, b: Confusion)
    ensures a.Plus(b).Weight() == a.Weight() + b.Weight()
  {
  }

  lemma {:induction false} RowWeight(h: seq<real>, t: seq<real>)
    requires |h| == |t|
    ensures RowTotal(h, t).Weight() <= |t| as real
    ensures BinaryRow(t) ==> RowTotal(h, t).Weight() == |t| as real
  {
    if h != [] {
      var c, rest := CellConfusion(h[0], t[0]), RowTotal(h[1..], t[1..]);
      var w, w0, wr := RowTotal(h, t).Weight(), c.Weight(), rest.Weight();
      assert w == w0 + wr by {
        RowTotalCons(h, t);
        PlusWeight(c, rest);
      }
      CellWeight(h[0], t[0]);
      RowWeight(h[1..], t[1..]);
      assert |t[1..]| as real == |t| as real - 1.0;
      if BinaryRow(t) {
        assert t[0] == 0.0 || t[0] == 1.0;
        assert BinaryRow(t[1..]) by {
          assert forall j :: 0 <= j < |t[1..]| ==> t[1..][j] == t[j + 1];
        }
      }
    }
  }

  lemma BinaryLabelsTail(y: Matrix)
    requires BinaryLabels(y) && y != []
    ensures BinaryLabels(y[1..])
    ensures BinaryRow(y[0])
  {
    forall i, j | 0 <= i < |y[1..]| && 0 <= j < |y[1..][i]|
      ensures y[1..][i][j] == 0.0 || y[1..][i][j] == 1.0
    {
      assert y[1..][i] == y[i + 1];
    }
  }

  /**
   * TP + TN + FP + FN summed over the whole tensor never exceeds the number of cells, and
   * equals it when every label is 0 or 1: each such cell lands in exactly one of the four.
   */
  lemma {:induction false} CountsCoverEveryCell(yHat: Matrix, yTrue: Matrix)
    requires SameShape(yHat, yTrue)
    ensures Totals(yHat, yTrue).Weight() <= CellCount(yTrue) as real
    ensures BinaryLabels(yTrue) ==> Totals(yHat, yTrue).Weight() == CellCount(yTrue) as real
  {
    if yHat != [] {
      var row, rest := RowTotal(yHat[0], yTrue[0]), Totals(yHat[1..], yTrue[1..]);
      TotalsCons(yHat, yTrue);
      assert Totals(yHat, yTrue).Weight() == row.Weight() + rest.Weight();
      assert CellCount(yTrue) == |yTrue[0]| + CellCount(yTrue[1..]);
      RowWeight(yHat[0], yTrue[0]);
      CountsCoverEveryCell(yHat[1..], yTrue[1..]);
      if BinaryLabels(yTrue) {
        BinaryLabelsTail(yTrue);
      }
    }
  }

  lemma {:induction false} RowNoHit(h: seq<real>, t: seq<real>)
    requires |h| == |t|
    ensures RowTotal(h, t).tp == 0.0 <==> forall j :: 0 <= j < |h| ==> !Hit(h[j], t[j])
  {
    if h != [] {
      var c, rest := CellConfusion(h[0], t[0]), RowTotal(h[1..], t[1..]);
      RowTotalCons(h, t);
      RowTotalNonNegative(h[1..], t[1..]);
      RowNoHit(h[1..], t[1..]);
      assert c.tp == 0.0 <==> !Hit(h[0], t[0]);
      assert RowTotal(h, t).tp == c.tp + rest.tp;
      if RowTotal(h, t).tp == 0.0 {
        forall j | 0 <= j < |h| ensures !Hit(h[j], t[j]) {
          if j > 0 { assert h[j] == h[1..][j - 1] && t[j] == t[1..][j - 1]; }
        }
      } else if c.tp == 0.0 {
        var j :| 0 <= j < |h[1..]| && Hit(h[1..][j], t[1..][j]);
        assert Hit(h[j + 1], t[j + 1]);
      }
    }
  }

  /** The corpus TP count is zero exactly when no cell is a hit. */
  lemma {:induction false} NoTruePositive(yHat: Matrix, yTrue: Matrix)
    requires SameShape(yHat, yTrue)
    ensures Totals(yHat, yTrue).tp == 0.0 <==>
            forall i, j :: 0 <= i < |yHat| && 0 <= j < |yHat[i]| ==> !Hit(yHat[i][j], yTrue[i][j])
  {
    if yHat != [] {
      TotalsCons(yHat, yTrue);
      RowTotalNonNegative(yHat[0], yTrue[0]);
      TotalsNonNegative(yHat[1..], yTrue[1..]);
      RowNoHit(yHat[0], yTrue[0]);
      NoTruePositive(yHat[1..], yTrue[1..]);
      if Totals(yHat, yTrue).tp == 0.0 {
        forall i, j | 0 <= i < |yHat| && 0 <= j < |yHat[i]| ensures !Hit(yHat[i][j], yTrue[i][j]) {
          if i > 0 { assert yHat[i] == yHat[1..][i - 1] && yTrue[i] == yTrue[1..][i - 1]; }
        }
      }
    }
  }

  lemma SameShapeAppend(a1: Matrix, b1: Matrix, a2: Matrix, b2: Matrix)
    requires SameShape(a1, b1) && SameShape(a2, b2)
    ensures SameShape(a1 + a2, b1 + b2)
  {
    forall i | 0 <= i < |a1 + a2| ensures |(a1 + a2)[i]| == |(b1 + b2)[i]| {
      if i >= |a1| {
        assert (a1 + a2)[i] == a2[i - |a1|] && (b1 + b2)[i] == b2[i - |a1|];
      }
    }
  }

  /** Counts of a concatenation are the sums of the counts of the parts. */
  lemma {:induction false} TotalsAppend(a1: Matrix, b1: Matrix, a2: Matrix, b2: Matrix)
    requires SameShape(a1, b1) && SameShape(a2, b2)
    ensures SameShape(a1 + a2, b1 + b2)
    ensures Totals(a1 + a2, b1 + b2) == Totals(a1, b1).Plus(Totals(a2, b2))
  {
    SameShapeAppend(a1, b1, a2, b2);
    if a1 == [] {
      assert a1 + a2 == a2 && b1 + b2 == b2;
    } else {
      var a, b := a1 + a2, b1 + b2;
      TotalsCons(a, b);
      TotalsCons(a1, b1);
      assert a[0] == a1[0] && b[0] == b1[0];
      assert a[1..] == a1[1..] + a2 && b[1..] == b1[1..] + b2;
      TotalsAppend(a1[1..], b1[1..], a2, b2);
    }
  }

  /** The rows of predictions and labels, side by side. */
  function Pairs(a: Matrix, b: Matrix): (p: seq<(seq<real>, seq<real>)>)
    requires |a| == |b|
    ensures |p| == |a|
  {
    seq(|a|, i requires 0 <= i < |a| => (a[i], b[i]))
  }

  lemma PairsAppend(a1: Matrix, b1: Matrix, a2: Matrix, b2: Matrix)
    requires |a1| == |b1| && |a2| == |b2|
    ensures Pairs(a1 + a2, b1 + b2) == Pairs(a1, b1) + Pairs(a2, b2)
  {
  }

  lemma SameShapeSlice(a: Matrix, b: Matrix, i: nat, j: nat)
    requires SameShape(a, b) && i <= j <= |a|
    ensures SameShape(a[i..j], b[i..j])
  {
    forall k | 0 <= k < j - i ensures |a[i..j][k]| == |b[i..j][k]| {
      assert a[i..j][k] == a[i + k] && b[i..j][k] == b[i + k];
    }
  }

  /** The sequence without its element at index k. */
  function Without<T>(s: seq<T>, k: nat): (r: seq<T>)
    requires k < |s|
    ensures |r| == |s| - 1
  {
    s[..k] + s[k + 1..]
  }

  lemma PairsWithout(a: Matrix, b: Matrix, k: nat)
    requires |a| == |b| && k < |a|
    ensures multiset(Pairs(Without(a, k), Without(b, k))) == multiset(Pairs(a, b)) - multiset{(a[k], b[k])}
  {
    assert a == a[..k] + [a[k]] + a[k + 1..] && b == b[..k] + [b[k]] + b[k + 1..];
    PairsAppend(a[..k], b[..k], a[k + 1..], b[k + 1..]);
    PairsAppend(a[..k] + [a[k]], b[..k] + [b[k]], a[k + 1..], b[k + 1..]);
    PairsAppend(a[..k], b[..k], [a[k]], [b[k]]);
  }

  lemma TotalsWithout(a: Matrix, b: Matrix, k: nat)
    requires SameShape(a, b) && k < |a|
    ensures SameShape(Without(a, k), Without(b, k))
    ensures Totals(a, b) == RowTotal(a[k], b[k]).Plus(Totals(Without(a, k), Without(b, k)))
  {
    SameShapeSlice(a, b, 0, k);
    SameShapeSlice(a, b, k, |a|);
    SameShapeSlice(a, b, k + 1, |a|);
    SameShapeAppend(a[..k], b[..k], a[k + 1..], b[k + 1..]);
    assert a == a[..k] + a[k..] && b == b[..k] + b[k..];
    TotalsAppend(a[..k], b[..k], a[k + 1..], b[k + 1..]);
    TotalsAppend(a[..k], b[..k], a[k..], b[k..]);
    TotalsCons(a[k..], b[k..]);
    assert a[k..][1..] == a[k + 1..] && b[k..][1..] == b[k + 1..];
  }

  lemma {:induction false} TotalsReorder(a: Matrix, b: Matrix, a2: Matrix, b2: Matrix)
    requires SameShape(a, b) && SameShape(a2, b2)
    requires multiset(Pairs(a, b)) == multiset(Pairs(a2, b2))
    ensures Totals(a, b) == Totals(a2, b2)
  {
    if a == [] {
      assert |multiset(Pairs(a2, b2))| == 0;
      assert a2 == [];
    } else {
      var x := Pairs(a, b)[0];
      assert x in multiset(Pairs(a2, b2));
      var k :| 0 <= k < |a2| && Pairs(a2, b2)[k] == x;
      PairsWithout(a, b, 0);
      PairsWithout(a2, b2, k);
      TotalsWithout(a, b, 0);
      TotalsWithout(a2, b2, k);
      TotalsReorder(Without(a, 0), Without(b, 0), Without(a2, k), Without(b2, k));
    }
  }

  /**
   * `f1_per_frame` sums its counts over the whole tensor before dividing, so any
   * reordering of the (prediction, label) rows leaves it unchanged.
   */
  lemma F1PerFrameReorder(a: Matrix, b: Matrix, a2: Matrix, b2: Matrix)
    requires SameShape(a, b) && SameShape(a2, b2)
    requires multiset(Pairs(a, b)) == multiset(Pairs(a2, b2))
    ensures F1PerFrame(a, b) == F1PerFrame(a2, b2)
  {
    TotalsReorder(a, b, a2, b2);
  }

  /** Errors of one row in the DCASE sense: max(fp, fn). */
  function RowErrors(c: Confusion): real { Max(c.fp, c.fn) }

  lemma {:induction false} ErrorNumerator(rows: seq<Confusion>)
    ensures SumOf(rows, Substitutions) + SumOf(rows, Deletions) + SumOf(rows, Insertions)
            == SumOf(rows, RowErrors)
  {
    if rows != [] {
      ErrorNumerator(rows[1..]);
    }
  }

  lemma RowTotalsTail(yHat: Matrix, yTrue: Matrix)
    requires SameShape(yHat, yTrue) && yHat != []
    ensures SameShape(yHat[1..], yTrue[1..])
    ensures RowTotals(yHat, yTrue)[0] == RowTotal(yHat[0], yTrue[0])
    ensures RowTotals(yHat, yTrue)[1..] == RowTotals(yHat[1..], yTrue[1..])
  {
    SameShapeSlice(yHat, yTrue, 1, |yHat|);
  }

  lemma {:induction false} RowErrorsNonNegative(yHat: Matrix, yTrue: Matrix)
    requires SameShape(yHat, yTrue)
    ensures SumOf(RowTotals(yHat, yTrue), RowErrors) >= 0.0
  {
    if yHat != [] {
      RowTotalsTail(yHat, yTrue);
      RowTotalNonNegative(yHat[0], yTrue[0]);
      RowErrorsNonNegative(yHat[1..], yTrue[1..]);
    }
  }

  predicate NonNegativeLabels(y: Matrix) {
    forall i, j :: 0 <= i < |y| && 0 <= j < |y[i]| ==> y[i][j] >= 0.0
  }

  lemma {:induction false} SumRealsNonNegative(s: seq<real>)
    requires forall j :: 0 <= j < |s| ==> s[j] >= 0.0
    ensures SumReals(s) >= 0.0
  {
    if s != [] {
      SumRealsNonNegative(s[1..]);
    }
  }

  lemma {:induction false} LabelSumNonNegative(y: Matrix)
    requires NonNegativeLabels(y)
    ensures LabelSum(y) >= 0.0
  {
    if y != [] {
      SumRealsNonNegative(y[0]);
      assert forall i, j :: 0 <= i < |y[1..]| && 0 <= j < |y[1..][i]| ==> y[1..][i][j] == y[i + 1][j];
      LabelSumNonNegative(y[1..]);
    }
  }

  /** With non-negative labels the error rate is non-negative. */
  lemma ErrorRateNonNegative(yHat: Matrix, yTrue: Matrix)
    requires SameShape(yHat, yTrue) && NonNegativeLabels(yTrue)
    ensures LabelSum(yTrue) + Eps > 0.0
    ensures ErrorRatePerFrame(yHat, yTrue) >= 0.0
  {
    LabelSumNonNegative(yTrue);
    RowErrorsNonNegative(yHat, yTrue);
    DivNonNegative(SumOf(RowTotals(yHat, yTrue), RowErrors), LabelSum(yTrue) + Eps);
  }

  lemma DivNonNegative(x: real, y: real)
    requires x >= 0.0 && y > 0.0
    ensures x / y >= 0.0
  {
  }

  /** Every thresholded prediction equals its 0/1 label. */
  predicate ExactMatch(yHat: Matrix, yTrue: Matrix)
    requires SameShape(yHat, yTrue)
  {
    BinaryLabels(yTrue) &&
    forall i, j :: 0 <= i < |yHat| && 0 <= j < |yHat[i]| ==> (yHat[i][j] >= 0.5 <==> yTrue[i][j] == 1.0)
  }

  lemma {:induction false} RowExact(h: seq<real>, t: seq<real>)
    requires |h| == |t|
    requires forall j :: 0 <= j < |t| ==> (t[j] == 0.0 || t[j] == 1.0) && (h[j] >= 0.5 <==> t[j] == 1.0)
    ensures RowTotal(h, t).fp == 0.0 && RowTotal(h, t).fn == 0.0
  {
    if h != [] {
      RowTotalCons(h, t);
      assert forall j :: 0 <= j < |t[1..]| ==> h[1..][j] == h[j + 1] && t[1..][j] == t[j + 1];
      RowExact(h[1..], t[1..]);
      var c := CellConfusion(h[0], t[0]);
      assert c.fp == 0.0 && c.fn == 0.0;
    }
  }

  lemma {:induction false} ExactRowErrors(yHat: Matrix, yTrue: Matrix)
    requires SameShape(yHat, yTrue) && ExactMatch(yHat, yTrue)
    ensures SumOf(RowTotals(yHat, yTrue), RowErrors) == 0.0
  {
    if yHat != [] {
      RowTotalsTail(yHat, yTrue);
      BinaryLabelsTail(yTrue);
      RowExact(yHat[0], yTrue[0]);
      assert forall i, j :: 0 <= i < |yHat[1..]| && 0 <= j < |yHat[1..][i]| ==>
        yHat[1..][i][j] == yHat[i + 1][j] && yTrue[1..][i][j] == yTrue[i + 1][j];
      ExactRowErrors(yHat[1..], yTrue[1..]);
    }
  }

  /** The error rate is 0 when every thresholded prediction equals its 0/1 label. */
  lemma ErrorRateZeroOnExactMatch(yHat: Matrix, yTrue: Matrix)
    requires SameShape(yHat, yTrue) && ExactMatch(yHat, yTrue)
    ensures LabelSum(yTrue) + Eps > 0.0
    ensures ErrorRatePerFrame(yHat, yTrue) == 0.0
  {
    assert NonNegativeLabels(yTrue);
    LabelSumNonNegative(yTrue);
    ExactRowErrors(yHat, yTrue);
  }

  lemma {:induction false} RowLabelSum(h: seq<real>, t: seq<real>)
    requires |h| == |t| && BinaryRow(t)
    ensures SumReals(t) == RowTotal(h, t).tp + RowTotal(h, t).fn
  {
    if h != [] {
      RowTotalCons(h, t);
      RowLabelSum(h[1..], t[1..]);
    }
  }

  /**
   * With 0/1 labels the error rate's denominator (less eps) is the number of active label
   * cells, TP + FN.
   */
  lemma {:induction false} LabelSumCountsPositives(yHat: Matrix, yTrue: Matrix)
    requires SameShape(yHat, yTrue) && BinaryLabels(yTrue)
    ensures LabelSum(yTrue) == Totals(yHat, yTrue).tp + Totals(yHat, yTrue).fn
  {
    if yHat != [] {
      TotalsCons(yHat, yTrue);
      BinaryLabelsTail(yTrue);
      RowLabelSum(yHat[0], yTrue[0]);
      LabelSumCountsPositives(yHat[1..], yTrue[1..]);
    }
  }

  lemma {:induction false} SingleCellRow(h: seq<real>, t: seq<real>)
    requires |h| == 1 && |t| == 1
    ensures RowTotal(h, t) == CellConfusion(h[0], t[0])
  {
    var none: seq<real> := [];
    assert h[1..] == none && t[1..] == none;
    assert RowTotal(none, none) == Zero by {
      assert MaskRow(none, none) == [];
    }
    RowTotalCons(h, t);
    PlusZero(CellConfusion(h[0], t[0]));
  }

  lemma PlusZero(c: Confusion)
    ensures c.Plus(Zero) == c
  {
  }

  /** One step of a concrete row: the head cell's value plus the tail's total. */
  lemma {:induction false} RowStep(h: seq<real>, t: seq<real>, head: Confusion, rest: Confusion)
    requires |h| == |t| && h != []
    requires CellConfusion(h[0], t[0]) == head && RowTotal(h[1..], t[1..]) == rest
    ensures RowTotal(h, t) == head.Plus(rest)
  {
    RowTotalCons(h, t);
  }

  lemma {:induction false} LastTwoCells(h: seq<real>, t: seq<real>)
    requires |h| == 2 && h[0] == 0.0 && h[1] == 1.0
    requires |t| == 2 && t[0] == 0.0 && t[1] == 0.0
    ensures RowTotal(h, t) == TrueNegative.Plus(FalsePositive)
  {
    SingleCellRow(h[1..], t[1..]);
    RowStep(h, t, TrueNegative, FalsePositive);
  }

  lemma {:induction false} LastThreeCells(h: seq<real>, t: seq<real>)
    requires |h| == 3 && h[0] == 0.0 && h[1] == 0.0 && h[2] == 1.0
    requires |t| == 3 && t[0] == 1.0 && t[1] == 0.0 && t[2] == 0.0
    ensures RowTotal(h, t) == FalseNegative.Plus(TrueNegative.Plus(FalsePositive))
  {
    LastTwoCells(h[1..], t[1..]);
    RowStep(h, t, FalseNegative, TrueNegative.Plus(FalsePositive));
  }

  /** The row `[1, 0, 0, 1]` against labels `[1, 1, 0, 0]` holds one cell of each kind. */
  lemma {:induction false} OneFrameRow(h: seq<real>, t: seq<real>)
    requires |h| == 4 && h[0] == 1.0 && h[1] == 0.0 && h[2] == 0.0 && h[3] == 1.0
    requires |t| == 4 && t[0] == 1.0 && t[1] == 1.0 && t[2] == 0.0 && t[3] == 0.0
    ensures RowTotal(h, t) == Confusion(1.0, 1.0, 1.0, 1.0)
  {
    var rest := FalseNegative.Plus(TrueNegative.Plus(FalsePositive));
    LastThreeCells(h[1..], t[1..]);
    RowStep(h, t, TruePositive, rest);
  }

  lemma {:induction false} SingleRowTotals(yHat: Matrix, yTrue: Matrix)
    requires SameShape(yHat, yTrue) && |yHat| == 1
    ensures Totals(yHat, yTrue) == RowTotal(yHat[0], yTrue[0]).Plus(Zero)
    ensures RowTotals(yHat, yTrue) == [RowTotal(yHat[0], yTrue[0])]
    ensures LabelSum(yTrue) == SumReals(yTrue[0])
  {
    var empty: Matrix := [];
    assert yHat[1..] == empty && yTrue[1..] == empty;
    assert Totals(yHat, yTrue) == RowTotal(yHat[0], yTrue[0]).Plus(Zero) by {
      TotalsCons(yHat, yTrue);
    }
    assert RowTotals(yHat, yTrue) == [RowTotal(yHat[0], yTrue[0])] by {
      assert TpTnFpFn(yHat, yTrue)[0] == MaskRow(yHat[0], yTrue[0]);
    }
    assert LabelSum(yTrue) == SumReals(yTrue[0]) + LabelSum(empty);
  }

  /**
   * One frame `[1, 0, 0, 1]` against `[1, 1, 0, 0]`: one cell of each kind, so the F1 score
   * is 2 / (4 + eps), and the false positive and false negative of the frame make a single
   * substitution, so the error rate is 1 / (2 + eps).
   */
  lemma {:induction false} OneFrameScenario(yHat: Matrix, yTrue: Matrix)
    requires |yHat| == 1 && |yHat[0]| == 4
    requires yHat[0][0] == 1.0 && yHat[0][1] == 0.0 && yHat[0][2] == 0.0 && yHat[0][3] == 1.0
    requires |yTrue| == 1 && |yTrue[0]| == 4
    requires yTrue[0][0] == 1.0 && yTrue[0][1] == 1.0 && yTrue[0][2] == 0.0 && yTrue[0][3] == 0.0
    ensures SameShape(yHat, yTrue) && LabelSum(yTrue) == 2.0
    ensures F1PerFrame(yHat, yTrue) == 2.0 / (4.0 + Eps)
    ensures ErrorRatePerFrame(yHat, yTrue) == 1.0 / (2.0 + Eps)
  {
    assert SameShape(yHat, yTrue);
    var row := RowTotal(yHat[0], yTrue[0]);
    OneFrameRow(yHat[0], yTrue[0]);
    SingleRowTotals(yHat, yTrue);
    RowLabelSum(yHat[0], yTrue[0]);
    assert SumOf([row], RowErrors) == 1.0;
  }

  lemma {:induction false} MissThenFalseAlarm(h: seq<real>, t: seq<real>)
    requires |h| == 2 && h[0] == 0.0 && h[1] == 1.0
    requires |t| == 2 && t[0] == 1.0 && t[1] == 0.0
    ensures RowTotal(h, t) == FalseNegative.Plus(FalsePositive)
  {
    SingleCellRow(h[1..], t[1..]);
    RowStep(h, t, FalseNegative, FalsePositive);
  }

  /**
   * The error rate depends on how cells are grouped into frames, the F1 score does not: a
   * missed event and a false alarm in the same frame are one substitution, in two frames they
   * are one deletion and one insertion.
   */
  lemma {:induction false} FramingScenario(oneHat: Matrix, oneTrue: Matrix, twoHat: Matrix, twoTrue: Matrix)
    requires |oneHat| == 1 && |oneHat[0]| == 2 && oneHat[0][0] == 0.0 && oneHat[0][1] == 1.0
    requires |oneTrue| == 1 && |oneTrue[0]| == 2 && oneTrue[0][0] == 1.0 && oneTrue[0][1] == 0.0
    requires |twoHat| == 2 && |twoHat[0]| == 1 && |twoHat[1]| == 1 && twoHat[0][0] == 0.0 && twoHat[1][0] == 1.0
    requires |twoTrue| == 2 && |twoTrue[0]| == 1 && |twoTrue[1]| == 1 && twoTrue[0][0] == 1.0 && twoTrue[1][0] == 0.0
    ensures SameShape(oneHat, oneTrue) && LabelSum(oneTrue) == 1.0
    ensures SameShape(twoHat, twoTrue) && LabelSum(twoTrue) == 1.0
    ensures F1PerFrame(oneHat, oneTrue) == F1PerFrame(twoHat, twoTrue) == 0.0
    ensures ErrorRatePerFrame(oneHat, oneTrue) == 1.0 / (1.0 + Eps)
    ensures ErrorRatePerFrame(twoHat, twoTrue) == 2.0 / (1.0 + Eps)
  {
    assert SameShape(oneHat, oneTrue) && SameShape(twoHat, twoTrue);
    var row := RowTotal(oneHat[0], oneTrue[0]);
    MissThenFalseAlarm(oneHat[0], oneTrue[0]);
    SingleRowTotals(oneHat, oneTrue);
    RowLabelSum(oneHat[0], oneTrue[0]);
    assert SumOf([row], RowErrors) == 1.0;

    var miss, alarm := RowTotal(twoHat[0], twoTrue[0]), RowTotal(twoHat[1], twoTrue[1]);
    SingleCellRow(twoHat[0], twoTrue[0]);
    SingleCellRow(twoHat[1], twoTrue[1]);
    assert miss == FalseNegative && alarm == FalsePositive;
    TotalsCons(twoHat, twoTrue);
    SingleRowTotals(twoHat[1..], twoTrue[1..]);
    assert Totals(twoHat, twoTrue) == FalseNegative.Plus(FalsePositive.Plus(Zero));
    assert RowTotals(twoHat, twoTrue) == [miss, alarm];
    assert LabelSum(twoTrue) == 1.0 by {
      assert LabelSum(twoTrue[1..]) == SumReals(twoTrue[1]);
      assert SumReals(twoTrue[0]) == 1.0 && SumReals(twoTrue[1]) == 0.0;
    }
    assert SumOf([miss, alarm], RowErrors) == 2.0 by {
      assert [miss, alarm][1..] == [alarm];
      assert RowErrors(miss) == 1.0 && RowErrors(alarm) == 1.0;
      assert SumOf([alarm], RowErrors) == 1.0 + SumOf([alarm][1..], RowErrors);
    }
  }
}
