/**
 * The larger metrics module (tools/_metrics.py).
 *
 * `f1`, `tp_tf_fp_fn`, `f1_per_frame` and `error_rate_per_frame` there compute, up to the
 * spelling of eps, exactly what `_f1`, `_tp_tf_fp_fn`, `f1_per_frame` and `error_rate_per_frame` of tools/metrics.py
 * compute, so they are the definitions of module `Metrics`, used here as they are. This
 * module adds precision, recall, the per-second variants that regroup a
 * (batch, time, class) tensor into blocks of `t_thr = floor(T / frames)` time steps, and the micro-averaged F1 score
 * that the file's self-check compares with.
 */
module MetricsTwin {
  import opened Wrappers
  import opened Tensors
  import opened Metrics

  /** `precision`: 0 when tp and fp are both zero, otherwise tp / (tp + fp + eps). */
  function Precision(tp: real, fp: real): (r: real)
    requires tp >= 0.0 && fp >= 0.0
    ensures tp == 0.0 && fp == 0.0 ==> r == 0.0
    ensures 0.0 <= r < 1.0
    ensures r == 0.0 <==> tp == 0.0
  {
    if tp == 0.0 && fp == 0.0 then 0.0
    else
      assert tp < tp + fp + Eps;
      tp / (tp + fp + Eps)
  }

  /** `recall`: 0 when tp and fn are both zero, otherwise tp / (tp + fn + eps). */
  function Recall(tp: real, fn: real): (r: real)
    requires tp >= 0.0 && fn >= 0.0
    ensures tp == 0.0 && fn == 0.0 ==> r == 0.0
    ensures 0.0 <= r < 1.0
    ensures r == 0.0 <==> tp == 0.0
  {
    if tp == 0.0 && fn == 0.0 then 0.0
    else
      assert tp < tp + fn + Eps;
      tp / (tp + fn + Eps)
  }

  lemma DivMonotoneDenominator(a: real, d1: real, d2: real)
    requires a >= 0.0 && 0.0 < d1 <= d2
    ensures a / d2 <= a / d1
  {
  }

  lemma DoubleBoth(x: real, y: real)
    requires y > 0.0
    ensures x / y == (2.0 * x) / (2.0 * y)
  {
  }

  /**
   * The F1 score is never below the smaller of precision and recall: with fp >= fn,
   * tp / (tp + fp + eps) = 2tp / (2tp + 2fp + 2eps) <= 2tp / (2tp + fp + fn + eps).
   */
  lemma F1AtLeastMinPrecisionRecall(tp: real, fp: real, fn: real)
    requires tp >= 0.0 && fp >= 0.0 && fn >= 0.0
    ensures Min(Precision(tp, fp), Recall(tp, fn)) <= F1(tp, fp, fn)
  {
    if tp > 0.0 {
      var a, d := 2.0 * tp, 2.0 * tp + fn + fp;
      var f := F1(tp, fp, fn);
      assert f == a / (d + Eps);
      if fp >= fn {
        var y := tp + fp + Eps;
        var p := Precision(tp, fp);
        assert p == tp / y;
        DoubleBoth(tp, y);
        DivMonotoneDenominator(a, d + Eps, 2.0 * y);
      } else {
        var y := tp + fn + Eps;
        var q := Recall(tp, fn);
        assert q == tp / y;
        DoubleBoth(tp, y);
        DivMonotoneDenominator(a, d + Eps, 2.0 * y);
      }
    }
  }

  // ----- The self-check against micro-averaged F1 -----------------------------------------

  /** Whole-number counts of hits, false alarms and misses. */
  datatype Counts = Counts(tp: nat, fp: nat, fn: nat)
  {
    function Plus(o: Counts): Counts {
      Counts(tp + o.tp, fp + o.fp, fn + o.fn)
    }
  }

  /**
   * How a micro-averaged F1 counts one cell of a 0/1 prediction against a 0/1 label: a hit
   * when both are 1, a false alarm when only the prediction is, a miss when only the label is.
   */
  function CellCounts(h: real, t: real): Counts {
    if h == 1.0 && t == 1.0 then Counts(1, 0, 0)
    else if h == 1.0 && t == 0.0 then Counts(0, 1, 0)
    else if h == 0.0 && t == 1.0 then Counts(0, 0, 1)
    else Counts(0, 0, 0)
  }

  function RowCounts(h: seq<real>, t: seq<real>): Counts
    requires |h| == |t|
  {
    if h == [] then Counts(0, 0, 0) else CellCounts(h[0], t[0]).Plus(RowCounts(h[1..], t[1..]))
  }

  function MatrixCounts(yHat: Matrix, yTrue: Matrix): Counts
    requires SameShape(yHat, yTrue)
  {
    if yHat == [] then Counts(0, 0, 0)
    else RowCounts(yHat[0], yTrue[0]).Plus(MatrixCounts(yHat[1..], yTrue[1..]))
  }

  /** Micro-averaged F1, 2tp / (2tp + fp + fn), and 0 when nothing is predicted or labelled. */
  function MicroF1(c: Counts): real {
    var d := 2 * c.tp + c.fp + c.fn;
    if d == 0 then 0.0 else (2 * c.tp) as real / d as real
  }

  /** Every value of the matrix is exactly 0 or exactly 1. */
  predicate Binary(y: Matrix) {
    BinaryLabels(y)
  }

  lemma CellCountsAgree(h: real, t: real)
    requires (h == 0.0 || h == 1.0) && (t == 0.0 || t == 1.0)
    ensures CellConfusion(h, t).tp == CellCounts(h, t).tp as real
    ensures CellConfusion(h, t).fp == CellCounts(h, t).fp as real
    ensures CellConfusion(h, t).fn == CellCounts(h, t).fn as real
  {
  }

  lemma {:induction false} RowCountsAgree(h: seq<real>, t: seq<real>)
    requires |h| == |t| && BinaryRow(h) && BinaryRow(t)
    ensures RowTotal(h, t).tp == RowCounts(h, t).tp as real
    ensures RowTotal(h, t).fp == RowCounts(h, t).fp as real
    ensures RowTotal(h, t).fn == RowCounts(h, t).fn as real
  {
    if h != [] {
      var c, rest := CellConfusion(h[0], t[0]), RowTotal(h[1..], t[1..]);
      var k, more := CellCounts(h[0], t[0]), RowCounts(h[1..], t[1..]);
      assert RowTotal(h, t) == c.Plus(rest) by {
        RowTotalCons(h, t);
      }
      assert RowCounts(h, t) == k.Plus(more);
      assert BinaryRow(h[1..]) && BinaryRow(t[1..]) by {
        assert forall j :: 0 <= j < |h[1..]| ==> h[1..][j] == h[j + 1] && t[1..][j] == t[j + 1];
      }
      CellCountsAgree(h[0], t[0]);
      RowCountsAgree(h[1..], t[1..]);
    }
  }

  /** With 0/1 predictions and 0/1 labels the masks count exactly the whole-number counts. */
  lemma {:induction false} CountsAgree(yHat: Matrix, yTrue: Matrix)
    requires SameShape(yHat, yTrue) && Binary(yHat) && Binary(yTrue)
    ensures Totals(yHat, yTrue).tp == MatrixCounts(yHat, yTrue).tp as real
    ensures Totals(yHat, yTrue).fp == MatrixCounts(yHat, yTrue).fp as real
    ensures Totals(yHat, yTrue).fn == MatrixCounts(yHat, yTrue).fn as real
  {
    if yHat != [] {
      var row, rest := RowTotal(yHat[0], yTrue[0]), Totals(yHat[1..], yTrue[1..]);
      var k, more := RowCounts(yHat[0], yTrue[0]), MatrixCounts(yHat[1..], yTrue[1..]);
      assert Totals(yHat, yTrue) == row.Plus(rest) by {
        TotalsCons(yHat, yTrue);
      }
      assert MatrixCounts(yHat, yTrue) == k.Plus(more);
      BinaryLabelsTail(yHat);
      BinaryLabelsTail(yTrue);
      RowCountsAgree(yHat[0], yTrue[0]);
      CountsAgree(yHat[1..], yTrue[1..]);
    }
  }

  /**
   * On whole-number counts, `f1` is below the exact micro-averaged F1 by at most eps:
   * 2tp/d - 2tp/(d + eps) = 2tp eps / (d (d + eps)) <= eps, since 2tp <= d and d >= 1.
   */
  lemma F1CloseToMicro(c: Counts)
    ensures 0.0 <= MicroF1(c) - F1(c.tp as real, c.fp as real, c.fn as real) <= Eps
  {
    var d := 2 * c.tp + c.fp + c.fn;
    if d != 0 {
      var a, dr := (2 * c.tp) as real, d as real;
      assert MicroF1(c) == a / dr;
      assert F1(c.tp as real, c.fp as real, c.fn as real) == a / (dr + Eps);
      GapBound(a, dr, Eps);
    }
  }

  /** a/d - a/(d + e) = a e / (d (d + e)), which is at most e when 0 <= a <= d and d >= 1. */
  lemma GapBound(a: real, d: real, e: real)
    requires 0.0 <= a <= d && d >= 1.0 && e > 0.0
    ensures 0.0 <= a / d - a / (d + e) <= e
  {
    DivMonotoneDenominator(a, d, d + e);
    GapTimesProduct(a, d, e);
    ProductAtLeast(d, e);
    ScaledBelow(a / d - a / (d + e), d * (d + e), a, e);
  }

  lemma GapTimesProduct(a: real, d: real, e: real)
    requires d >= 1.0 && e > 0.0
    ensures (a / d - a / (d + e)) * (d * (d + e)) == a * e
  {
    var m, f := a / d, a / (d + e);
    assert m * d == a;
    assert f * (d + e) == a;
    calc {
      (m - f) * (d * (d + e));
      m * d * (d + e) - f * (d + e) * d;
      a * (d + e) - a * d;
    }
  }

  lemma ProductAtLeast(d: real, e: real)
    requires d >= 1.0 && e > 0.0
    ensures d * (d + e) >= d
  {
    assert d * (d + e) >= d * 1.0;
  }

  /** g q = a e with 0 < a <= q and e > 0: dividing by q gives g <= e. */
  lemma ScaledBelow(g: real, q: real, a: real, e: real)
    requires q > 0.0 && a <= q && e > 0.0 && g * q == a * e
    ensures g <= e
  {
    assert a * e <= q * e;
  }

  /**
   * The self-check of tools/_metrics.py: on 0/1 matrices `f1_per_frame` agrees with
   * micro-averaged F1 up to eps (it is never above it).
   */
  lemma SelfCheck(yHat: Matrix, yTrue: Matrix)
    requires SameShape(yHat, yTrue) && Binary(yHat) && Binary(yTrue)
    ensures 0.0 <= MicroF1(MatrixCounts(yHat, yTrue)) - F1PerFrame(yHat, yTrue) <= Eps
  {
    CountsAgree(yHat, yTrue);
    F1CloseToMicro(MatrixCounts(yHat, yTrue));
  }

  // ----- Per-second variants -----------------------------------------------------------------

  /**
   * A (batch, time, class) tensor: `steps` and `classes` are its second and third sizes,
   * which exist even when there are no batches.
   */
  datatype Tensor3 = Tensor3(steps: nat, classes: nat, batches: seq<Matrix>)
  {
    predicate Valid() {
      forall b :: 0 <= b < |batches| ==>
        |batches[b]| == steps && forall i :: 0 <= i < steps ==> |batches[b][i]| == classes
    }
  }

  /** Both tensors are well formed and have the same three sizes. */
  predicate Congruent(x: Tensor3, y: Tensor3) {
    x.Valid() && y.Valid() && x.steps == y.steps && x.classes == y.classes
    && |x.batches| == |y.batches|
  }

  /** Concatenation of blocks of rows, which is what `view(-1, classes)` reads. */
  function Flatten(blocks: seq<Matrix>): Matrix {
    if blocks == [] then [] else blocks[0] + Flatten(blocks[1..])
  }

  /** `view(-1, classes)` of a well-formed tensor: its frames, batch after batch. */
  function Frames(y: Tensor3): Matrix {
    Flatten(y.batches)
  }

  /** `y[:, :n, :]`: the first `n` time steps of every batch. */
  function TruncateSteps(y: Tensor3, n: nat): (r: Tensor3)
    requires y.Valid() && n <= y.steps
    ensures r.Valid() && r.steps == n && r.classes == y.classes && |r.batches| == |y.batches|
  {
    Tensor3(n, y.classes, seq(|y.batches|, b requires 0 <= b < |y.batches| => y.batches[b][..n]))
  }

  /**
   * `n` consecutive blocks of `k` rows, which is what `view(-1, k, classes)` makes of
   * `n * k` rows.
   */
  function Chunks(rows: Matrix, k: nat, n: nat): (r: seq<Matrix>)
    requires |rows| == n * k
    ensures |r| == n
    ensures forall i :: 0 <= i < |r| ==> |r[i]| == k
  {
    if n == 0 then []
    else
      assert n * k == (n - 1) * k + k;
      [rows[..k]] + Chunks(rows[k..], k, n - 1)
  }

  /** Regrouping rows into blocks and reading them back yields the same rows, in order. */
  lemma {:induction false} FlattenChunks(rows: Matrix, k: nat, n: nat)
    requires |rows| == n * k
    ensures Flatten(Chunks(rows, k, n)) == rows
  {
    if n != 0 {
      assert n * k == (n - 1) * k + k;
      var c := Chunks(rows, k, n);
      assert c[0] == rows[..k] && c[1..] == Chunks(rows[k..], k, n - 1);
      FlattenChunks(rows[k..], k, n - 1);
      assert rows == rows[..k] + rows[k..];
    }
  }

  lemma {:induction false} FlattenShape(blocks: seq<Matrix>, steps: nat, classes: nat)
    requires forall b :: 0 <= b < |blocks| ==>
      |blocks[b]| == steps && forall i :: 0 <= i < steps ==> |blocks[b][i]| == classes
    ensures |Flatten(blocks)| == |blocks| * steps
    ensures forall i :: 0 <= i < |Flatten(blocks)| ==> |Flatten(blocks)[i]| == classes
  {
    if blocks != [] {
      FlattenShape(blocks[1..], steps, classes);
      assert Flatten(blocks) == blocks[0] + Flatten(blocks[1..]);
    }
  }

  /** The frames of two congruent tensors pair up, and there are batches × steps of them. */
  lemma FramesShape(x: Tensor3, y: Tensor3)
    requires Congruent(x, y)
    ensures SameShape(Frames(x), Frames(y))
    ensures |Frames(x)| == |x.batches| * x.steps
  {
    FlattenShape(x.batches, x.steps, x.classes);
    FlattenShape(y.batches, y.steps, y.classes);
  }

  /** `t_thr`: whole seconds in the time axis, `floor(T / frames)`. */
  function Seconds(y: Tensor3, frames: nat): nat
    requires frames > 0
  {
    y.steps / frames
  }

  /** `y[:, :t_thr * frames, :]`: the time axis cut to whole seconds. */
  function WholeSeconds(y: Tensor3, frames: nat): (r: Tensor3)
    requires y.Valid() && frames > 0
    ensures r.Valid() && r.steps == Seconds(y, frames) * frames && r.classes == y.classes
    ensures |r.batches| == |y.batches|
  {
    TruncateSteps(y, Seconds(y, frames) * frames)
  }

  /** Why `view(-1, t_thr, classes)` fails: the block shape holds no element. */
  datatype ViewError = EmptyBlockShape

  /**
   * `view(-1, t_thr, classes)` of the truncated tensor: blocks of `t_thr` frames. It fails
   * when t_thr * classes is 0, because the size of `-1` cannot be inferred then.
   */
  function SecondBlocks(y: Tensor3, frames: nat): (r: Result<seq<Matrix>, ViewError>)
    requires y.Valid() && frames > 0
    ensures r.Err? <==> Seconds(y, frames) * y.classes == 0
  {
    var tThr := Seconds(y, frames);
    if tThr * y.classes == 0 then Err(EmptyBlockShape)
    else
      var rows := Frames(WholeSeconds(y, frames));
      WholeSecondsCount(y, frames);
      Ok(Chunks(rows, tThr, |y.batches| * frames))
  }

  lemma WholeSecondsCount(y: Tensor3, frames: nat)
    requires y.Valid() && frames > 0
    ensures |Frames(WholeSeconds(y, frames))| == (|y.batches| * frames) * Seconds(y, frames)
  {
    var w := WholeSeconds(y, frames);
    FlattenShape(w.batches, w.steps, w.classes);
    Regroup(|y.batches|, Seconds(y, frames), frames);
  }

  lemma Regroup(b: nat, s: nat, f: nat)
    ensures b * (s * f) == (b * f) * s
  {
  }

  lemma SecondBlocksFrames(y: Tensor3, frames: nat)
    requires y.Valid() && frames > 0 && SecondBlocks(y, frames).Ok?
    ensures Flatten(SecondBlocks(y, frames).value) == Frames(WholeSeconds(y, frames))
  {
    WholeSecondsCount(y, frames);
    FlattenChunks(Frames(WholeSeconds(y, frames)), Seconds(y, frames), |y.batches| * frames);
  }

  /**
   * `f1_per_second`: `f1_per_frame` of the blocks of `t_thr` frames (which it reads back as rows
   * of `classes` values).
   */
  function F1PerSecond(yHat: Tensor3, yTrue: Tensor3, frames: nat): (r: Result<real, ViewError>)
    requires Congruent(yHat, yTrue) && frames > 0
    ensures r.Err? <==> Seconds(yTrue, frames) * yTrue.classes == 0
  {
    var h := SecondBlocks(yHat, frames);
    var t := SecondBlocks(yTrue, frames);
    if h.Err? || t.Err? then Err(EmptyBlockShape)
    else
      SecondBlocksFrames(yHat, frames);
      SecondBlocksFrames(yTrue, frames);
      FramesShape(WholeSeconds(yHat, frames), WholeSeconds(yTrue, frames));
      Ok(F1PerFrame(Flatten(h.value), Flatten(t.value)))
  }

  /**
   * `error_rate_per_second`: `error_rate_per_frame` of the blocks of `t_thr` frames. As there, fp
   * and fn are counted per row of `classes` values, and the sum of the labels plus eps must
   * not be 0.
   */
  function ErrorRatePerSecond(yHat: Tensor3, yTrue: Tensor3, frames: nat): (r: Result<real, ViewError>)
    requires Congruent(yHat, yTrue) && frames > 0
    requires LabelSum(Frames(WholeSeconds(yTrue, frames))) + Eps != 0.0
    ensures r.Err? <==> Seconds(yTrue, frames) * yTrue.classes == 0
  {
    var h := SecondBlocks(yHat, frames);
    var t := SecondBlocks(yTrue, frames);
    if h.Err? || t.Err? then Err(EmptyBlockShape)
    else
      SecondBlocksFrames(yHat, frames);
      SecondBlocksFrames(yTrue, frames);
      FramesShape(WholeSeconds(yHat, frames), WholeSeconds(yTrue, frames));
      Ok(ErrorRatePerFrame(Flatten(h.value), Flatten(t.value)))
  }

  /**
   * Grouping into seconds changes nothing but the truncation: `f1_per_second` is
   * `f1_per_frame` of the frames of the first floor(T / frames) * frames time steps.
   */
  lemma F1PerSecondIsPerFrame(yHat: Tensor3, yTrue: Tensor3, frames: nat)
    requires Congruent(yHat, yTrue) && frames > 0
    requires Seconds(yTrue, frames) * yTrue.classes != 0
    ensures SameShape(Frames(WholeSeconds(yHat, frames)), Frames(WholeSeconds(yTrue, frames)))
    ensures F1PerSecond(yHat, yTrue, frames)
            == Ok(F1PerFrame(Frames(WholeSeconds(yHat, frames)), Frames(WholeSeconds(yTrue, frames))))
  {
    FramesShape(WholeSeconds(yHat, frames), WholeSeconds(yTrue, frames));
    SecondBlocksFrames(yHat, frames);
    SecondBlocksFrames(yTrue, frames);
  }

  /** The same for the error rate: fp and fn stay counted per frame. */
  lemma ErrorRatePerSecondIsPerFrame(yHat: Tensor3, yTrue: Tensor3, frames: nat)
    requires Congruent(yHat, yTrue) && frames > 0
    requires Seconds(yTrue, frames) * yTrue.classes != 0
    requires LabelSum(Frames(WholeSeconds(yTrue, frames))) + Eps != 0.0
    ensures SameShape(Frames(WholeSeconds(yHat, frames)), Frames(WholeSeconds(yTrue, frames)))
    ensures ErrorRatePerSecond(yHat, yTrue, frames)
            == Ok(ErrorRatePerFrame(Frames(WholeSeconds(yHat, frames)), Frames(WholeSeconds(yTrue, frames))))
  {
    FramesShape(WholeSeconds(yHat, frames), WholeSeconds(yTrue, frames));
    SecondBlocksFrames(yHat, frames);
    SecondBlocksFrames(yTrue, frames);
  }

  lemma TruncateAll(y: Tensor3)
    requires y.Valid()
    ensures TruncateSteps(y, y.steps) == y
  {
    var r := TruncateSteps(y, y.steps);
    assert r.batches == y.batches by {
      forall b | 0 <= b < |y.batches| ensures r.batches[b] == y.batches[b] {
        assert y.batches[b][..y.steps] == y.batches[b];
      }
    }
  }

  /**
   * When the time axis is a whole number of seconds, `f1_per_second` is `f1_per_frame` of
   * the whole tensor.
   */
  lemma F1PerSecondWhole(yHat: Tensor3, yTrue: Tensor3, frames: nat)
    requires Congruent(yHat, yTrue) && frames > 0
    requires yTrue.steps % frames == 0 && yTrue.steps > 0 && yTrue.classes > 0
    ensures SameShape(Frames(yHat), Frames(yTrue))
    ensures F1PerSecond(yHat, yTrue, frames) == Ok(F1PerFrame(Frames(yHat), Frames(yTrue)))
  {
    assert Seconds(yTrue, frames) * frames == yTrue.steps;
    assert Seconds(yTrue, frames) > 0;
    TruncateAll(yHat);
    TruncateAll(yTrue);
    FramesShape(yHat, yTrue);
    F1PerSecondIsPerFrame(yHat, yTrue, frames);
  }
}
