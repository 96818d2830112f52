/**
 * The teacher-forcing recurrent classifier (models/tf_crnn.py): the `min_prob` property,
 * the scheduled-sampling probability and the time-step loop of `forward`.
 *
 * The layers are opaque. `features[i][t]` is the embedding of frame `t` of example `i`
 * (what the CNN and dropout produce), `cell` is the GRU cell applied to one example's
 * input row and hidden row, and `classify` is the linear classifier of one hidden row.
 * The annealing curve `(2 / (1 + exp(-gamma * iteration / batch_counter))) - 1` is the
 * opaque `curve`, and the integers drawn by `random_(0, 1001)` are the input `draws[t][i]`.
 */
module TeacherForcing {
  import opened Wrappers
  import opened Tensors

  type Row = seq<real>

  // ----- The scheduled-sampling probability ------------------------------------------------

  /**
   * `min(max_prob, 1 - min(min_prob, raw))`, where `min_prob` is read through the property,
   * so it is the configured value and not the stored complement.
   */
  function Probability(minProb: real, maxProb: real, raw: real): (p: real)
    ensures p <= maxProb
    ensures p >= Min(maxProb, 1.0 - minProb)
    ensures p <= 1.0 - Min(minProb, raw)
  {
    Min(maxProb, 1.0 - Min(minProb, raw))
  }

  /** On the first iteration the curve is 0, so the probability is min(max_prob, 1). */
  lemma ProbabilityAtStart(minProb: real, maxProb: real)
    requires minProb >= 0.0
    ensures Probability(minProb, maxProb, 0.0) == Min(maxProb, 1.0)
  {
  }

  /** A higher curve value never raises the probability of feeding back the labels. */
  lemma ProbabilityAntitone(minProb: real, maxProb: real, raw1: real, raw2: real)
    requires raw1 <= raw2
    ensures Probability(minProb, maxProb, raw2) <= Probability(minProb, maxProb, raw1)
  {
  }

  /** The curve never decreases as the iteration counter grows. */
  ghost predicate NonDecreasing(curve: nat -> real) {
    forall m: nat, n: nat :: m <= n ==> curve(m) <= curve(n)
  }

  // ----- One time step, as a function of the state ------------------------------------------

  /** The hard prediction: `sigmoid(logit) > 0.5`, which is `logit > 0`. */
  function Hard(logits: Row): (r: Row)
    ensures |r| == |logits|
    ensures forall j :: 0 <= j < |r| ==> (r[j] == 1.0 <==> logits[j] > 0.0) && (r[j] == 0.0 <==> logits[j] <= 0.0)
  {
    seq(|logits|, j requires 0 <= j < |logits| => if logits[j] > 0.0 then 1.0 else 0.0)
  }

  /**
   * `flags.random_(0, 1001).div_(1000).lt_(prob)`: one flag per example, set when its draw is
   * below `1000 * prob`. For draws in 0..1000, a probability above 1 flags every example; one
   * at or below 0 flags none.
   */
  function Flags(draws: seq<nat>, prob: real): (f: seq<bool>)
    ensures |f| == |draws|
    ensures forall i :: 0 <= i < |f| ==> (f[i] <==> (draws[i] as real) < 1000.0 * prob)
    ensures DrawsInRange(draws) && prob > 1.0 ==> forall i :: 0 <= i < |f| ==> f[i]
    ensures prob <= 0.0 ==> !AnyFlag(f)
  {
    seq(|draws|, i requires 0 <= i < |draws| => (draws[i] as real) / 1000.0 < prob)
  }

  predicate AnyFlag(f: seq<bool>) {
    exists i :: 0 <= i < |f| && f[i]
  }

  /** Every draw lies in 0..1000. */
  predicate DrawsInRange(draws: seq<nat>) {
    forall i :: 0 <= i < |draws| ==> draws[i] <= 1000
  }

  /** The opaque layers. */
  datatype Layers = Layers(cell: (Row, Row) -> Row, classify: Row -> Row)

  /** The hidden rows, the feedback rows and the iteration counter between two time steps. */
  datatype StepState = StepState(hidden: seq<Row>, feedback: seq<Row>, iteration: nat)

  /** What every call starts from: zero hidden rows and zero feedback rows. */
  function Initial(batch: nat, hiddenSize: nat, classes: nat, iteration: nat): (s: StepState)
    ensures |s.hidden| == batch && |s.feedback| == batch && s.iteration == iteration
  {
    StepState(seq(batch, _ => Zeros(hiddenSize)), seq(batch, _ => Zeros(classes)), iteration)
  }

  /** The configuration the probability is computed from. */
  datatype Schedule = Schedule(minProb: real, maxProb: real, curve: nat -> real)
  {
    function At(iteration: nat): real {
      Probability(minProb, maxProb, curve(iteration))
    }
  }

  /** The inputs of one `forward` call. */
  datatype Inputs = Inputs(features: seq<seq<Row>>, labels: Option<seq<seq<Row>>>, draws: seq<seq<nat>>, steps: nat)
  {
    predicate Valid() {
      && (forall i :: 0 <= i < |features| ==> |features[i]| == steps)
      && (labels.Some? ==>
            |labels.value| == |features| && forall i :: 0 <= i < |features| ==> |labels.value[i]| == steps)
      && |draws| == steps
      && (forall t :: 0 <= t < steps ==> |draws[t]| == |features| && DrawsInRange(draws[t]))
    }
  }

  /** The hidden rows after step `t`: `h = self.rnn(cat([features[:, t], tf]), h)`. */
  function NextHidden(layers: Layers, inputs: Inputs, s: StepState, t: nat): (h: seq<Row>)
    requires inputs.Valid() && t < inputs.steps
    requires |s.hidden| == |inputs.features| && |s.feedback| == |inputs.features|
    ensures |h| == |inputs.features|
  {
    seq(|inputs.features|, i requires 0 <= i < |inputs.features| =>
      layers.cell(inputs.features[i][t] + s.feedback[i], s.hidden[i]))
  }

  /** The logits of step `t`, `self.classifier(h)`, one row per example. */
  function Logits(layers: Layers, hidden: seq<Row>): (r: seq<Row>)
    ensures |r| == |hidden|
  {
    seq(|hidden|, i requires 0 <= i < |hidden| => layers.classify(hidden[i]))
  }

  /**
   * The feedback rows after a step. With labels, example `i` gets its label row when it is
   * flagged and its hard prediction otherwise. Without labels every example ends with its
   * hard prediction: either no example is flagged and the loop writes them all, or looking
   * up a label for a flagged example raises TypeError and the handler writes them all.
   */
  function NextFeedback(labels: Option<seq<seq<Row>>>, flags: seq<bool>, hard: seq<Row>, t: nat): (r: seq<Row>)
    requires |flags| == |hard|
    requires labels.Some? ==> |labels.value| == |hard| && forall i :: 0 <= i < |hard| ==> t < |labels.value[i]|
    ensures |r| == |hard|
  {
    match labels
    case Some(y) => seq(|hard|, i requires 0 <= i < |hard| => if flags[i] then y[i][t] else hard[i])
    case None => hard
  }

  /**
   * Whether the counter advances after a step: the increment follows the row loop inside
   * the `try`, so it is skipped exactly when a flagged example finds no labels.
   */
  predicate Advances(labels: Option<seq<seq<Row>>>, flags: seq<bool>) {
    labels.Some? || !AnyFlag(flags)
  }

  /** One time step. */
  function Step(layers: Layers, schedule: Schedule, inputs: Inputs, s: StepState, t: nat): (r: StepState)
    requires inputs.Valid() && t < inputs.steps
    requires |s.hidden| == |inputs.features| && |s.feedback| == |inputs.features|
    ensures |r.hidden| == |inputs.features| && |r.feedback| == |inputs.features|
  {
    var flags := Flags(inputs.draws[t], schedule.At(s.iteration));
    var hidden := NextHidden(layers, inputs, s, t);
    var hard := HardRows(Logits(layers, hidden));
    StepState(hidden, NextFeedback(inputs.labels, flags, hard, t),
              if Advances(inputs.labels, flags) then s.iteration + 1 else s.iteration)
  }

  function HardRows(logits: seq<Row>): (r: seq<Row>)
    ensures |r| == |logits|
  {
    seq(|logits|, i requires 0 <= i < |logits| => Hard(logits[i]))
  }

  /**
   * The `try`/`except TypeError` block of a step: rows are written in order, each with its
   * label row when flagged and its hard prediction otherwise, until a flagged row finds no
   * labels; the handler then writes every hard prediction. Returns whether the block ran to
   * its end, which is when the counter advances.
   */
  method WriteFeedback(tf: array<Row>, flags: array<bool>, labels: Option<seq<seq<Row>>>, hard: seq<Row>, t: nat)
    returns (completed: bool)
    requires tf.Length == flags.Length == |hard|
    requires labels.Some? ==> |labels.value| == |hard| && forall i :: 0 <= i < |hard| ==> t < |labels.value[i]|
    modifies tf
    ensures completed == Advances(labels, flags[..])
    ensures tf[..] == NextFeedback(labels, flags[..], hard, t)
  {
    var b := tf.Length;
    var ii := 0;
    var failed := false;
    while ii < b && !failed
      invariant 0 <= ii <= b
      invariant failed ==> ii < b && labels.None? && flags[ii]
      decreases b - ii, if failed then 0 else 1
      invariant labels.None? ==> forall j :: 0 <= j < ii ==> !flags[j]
      invariant forall j :: 0 <= j < ii ==>
                  tf[j] == if flags[j] && labels.Some? then labels.value[j][t] else hard[j]
    {
      if flags[ii] {
        match labels {
          case None =>
            failed := true;
          case Some(y) =>
            tf[ii] := y[ii][t];
        }
      } else {
        tf[ii] := hard[ii];
      }
      if !failed {
        ii := ii + 1;
      }
    }
    if failed {
      forall j | 0 <= j < b {
        tf[j] := hard[j];
      }
      assert AnyFlag(flags[..]) by {
        assert flags[..][ii];
      }
    }
    completed := !failed;
  }

  /** The state after the first `t` time steps. */
  function StateAfter(layers: Layers, schedule: Schedule, inputs: Inputs, start: StepState, t: nat): (r: StepState)
    requires inputs.Valid() && t <= inputs.steps
    requires |start.hidden| == |inputs.features| && |start.feedback| == |inputs.features|
    ensures |r.hidden| == |inputs.features| && |r.feedback| == |inputs.features|
  {
    if t == 0 then start
    else Step(layers, schedule, inputs, StateAfter(layers, schedule, inputs, start, t - 1), t - 1)
  }

  /** The first `n` time columns of `outputs`, one row per example in each. */
  ghost function Columns(outputs: array2<Row>, n: nat): (r: seq<seq<Row>>)
    requires n <= outputs.Length1
    reads outputs
    ensures |r| == n
  {
    seq(n, k requires 0 <= k < n reads outputs =>
      seq(outputs.Length0, i requires 0 <= i < outputs.Length0 reads outputs => outputs[i, k]))
  }

  /** `outputs[:, t, :] = cls_out`: column `t` receives one row per example. */
  method WriteColumn(outputs: array2<Row>, t: nat, rows: seq<Row>)
    requires t < outputs.Length1 && |rows| == outputs.Length0
    modifies outputs
    ensures Columns(outputs, t + 1) == old(Columns(outputs, t)) + [rows]
  {
    ghost var before := Columns(outputs, t);
    forall i | 0 <= i < outputs.Length0 {
      outputs[i, t] := rows[i];
    }
    ghost var after := Columns(outputs, t + 1);
    forall k | 0 <= k < t ensures after[k] == before[k] {
      assert forall i :: 0 <= i < outputs.Length0 ==> after[k][i] == before[k][i];
    }
    assert after[t] == rows;
    assert after == before + [rows];
  }

  /** The logits of every step so far, step by step: what `outputs[:, t]` receives. */
  function Outputs(layers: Layers, schedule: Schedule, inputs: Inputs, start: StepState, t: nat): (r: seq<seq<Row>>)
    requires inputs.Valid() && t <= inputs.steps
    requires |start.hidden| == |inputs.features| && |start.feedback| == |inputs.features|
    ensures |r| == t
    ensures forall k :: 0 <= k < t ==> |r[k]| == |inputs.features|
  {
    if t == 0 then []
    else Outputs(layers, schedule, inputs, start, t - 1) + [Logits(layers, StateAfter(layers, schedule, inputs, start, t).hidden)]
  }

  /** Column `k` of the outputs holds the logits computed from the hidden rows of step `k`. */
  lemma {:induction false} OutputsAt(layers: Layers, schedule: Schedule, inputs: Inputs, start: StepState, t: nat, k: nat)
    requires inputs.Valid() && t <= inputs.steps && k < t
    requires |start.hidden| == |inputs.features| && |start.feedback| == |inputs.features|
    ensures Outputs(layers, schedule, inputs, start, t)[k]
            == Logits(layers, StateAfter(layers, schedule, inputs, start, k + 1).hidden)
  {
    if k < t - 1 {
      OutputsAt(layers, schedule, inputs, start, t - 1, k);
    }
  }

  /** The schedule at iteration 0, where the curve is 0: min(max_prob, 1). */
  lemma ScheduleAtStart(schedule: Schedule)
    requires schedule.curve(0) == 0.0 && schedule.minProb >= 0.0
    ensures schedule.At(0) == Min(schedule.maxProb, 1.0)
  {
    ProbabilityAtStart(schedule.minProb, schedule.maxProb);
  }

  /**
   * With a curve that never decreases, the probability of feeding back the labels never
   * increases as training goes on.
   */
  lemma ScheduleNonIncreasing(schedule: Schedule, m: nat, n: nat)
    requires NonDecreasing(schedule.curve) && m <= n
    ensures schedule.At(n) <= schedule.At(m)
  {
    ProbabilityAntitone(schedule.minProb, schedule.maxProb, schedule.curve(m), schedule.curve(n));
  }

  /** The flags drawn at step `k`, against the probability at that step's counter. */
  function FlagsAt(layers: Layers, schedule: Schedule, inputs: Inputs, start: StepState, k: nat): (f: seq<bool>)
    requires inputs.Valid() && k < inputs.steps
    requires |start.hidden| == |inputs.features| && |start.feedback| == |inputs.features|
    ensures |f| == |inputs.features|
  {
    Flags(inputs.draws[k], schedule.At(StateAfter(layers, schedule, inputs, start, k).iteration))
  }

  /** With labels, the counter grows by exactly one per time step. */
  lemma {:induction false} LabelsAdvanceEveryStep(layers: Layers, schedule: Schedule, inputs: Inputs, start: StepState, t: nat)
    requires inputs.Valid() && t <= inputs.steps && inputs.labels.Some?
    requires |start.hidden| == |inputs.features| && |start.feedback| == |inputs.features|
    ensures StateAfter(layers, schedule, inputs, start, t).iteration == start.iteration + t
  {
    if t > 0 {
      LabelsAdvanceEveryStep(layers, schedule, inputs, start, t - 1);
    }
  }

  /**
   * With labels, example `i`'s feedback after step `k` is its label row at `k` when its draw
   * r satisfies r / 1000 < prob, and its hard prediction otherwise.
   */
  lemma LabelFeedback(layers: Layers, schedule: Schedule, inputs: Inputs, start: StepState, k: nat, i: nat)
    requires inputs.Valid() && k < inputs.steps && inputs.labels.Some? && i < |inputs.features|
    requires |start.hidden| == |inputs.features| && |start.feedback| == |inputs.features|
    ensures var s := StateAfter(layers, schedule, inputs, start, k + 1);
            var prob := schedule.At(StateAfter(layers, schedule, inputs, start, k).iteration);
            s.feedback[i] == if (inputs.draws[k][i] as real) / 1000.0 < prob then inputs.labels.value[i][k]
                             else Hard(Logits(layers, s.hidden)[i])
  {
  }

  /** Without labels, the feedback after every step is the hard prediction of every example. */
  lemma NoLabelsFeedbackIsHard(layers: Layers, schedule: Schedule, inputs: Inputs, start: StepState, t: nat)
    requires inputs.Valid() && 0 < t <= inputs.steps && inputs.labels.None?
    requires |start.hidden| == |inputs.features| && |start.feedback| == |inputs.features|
    ensures var s := StateAfter(layers, schedule, inputs, start, t);
            forall i :: 0 <= i < |inputs.features| ==> s.feedback[i] == Hard(Logits(layers, s.hidden)[i])
  {
  }

  /**
   * Without labels the counter still moves: it advances on exactly the steps where no
   * example is flagged, so it stays within `t` of its start and reaches `start + t` exactly
   * when no step flagged anyone.
   */
  lemma {:induction false} NoLabelsIteration(layers: Layers, schedule: Schedule, inputs: Inputs, start: StepState, t: nat)
    requires inputs.Valid() && t <= inputs.steps && inputs.labels.None?
    requires |start.hidden| == |inputs.features| && |start.feedback| == |inputs.features|
    ensures var it := StateAfter(layers, schedule, inputs, start, t).iteration;
            && start.iteration <= it <= start.iteration + t
            && (it == start.iteration + t <==>
                  forall k :: 0 <= k < t ==> !AnyFlag(FlagsAt(layers, schedule, inputs, start, k)))
  {
    if t > 0 {
      NoLabelsIteration(layers, schedule, inputs, start, t - 1);
      var f := FlagsAt(layers, schedule, inputs, start, t - 1);
      var it := StateAfter(layers, schedule, inputs, start, t).iteration;
      var prev := StateAfter(layers, schedule, inputs, start, t - 1).iteration;
      assert it == if AnyFlag(f) then prev else prev + 1;
    }
  }

  // ----- The model object -----------------------------------------------------------------

  class TFCRNN {
    /** `_min_prob`: the complement of the configured `min_prob`. */
    var minProbComplement: real
    var maxProb: real
    /** Time steps processed with the counter advancing, over the model's lifetime. */
    var iteration: nat
    const classes: nat
    const hiddenSize: nat
    const curve: nat -> real
    const layers: Layers

    constructor (classes: nat, hiddenSize: nat, curve: nat -> real, layers: Layers, minProb: real, maxProb: real)
      ensures this.classes == classes && this.hiddenSize == hiddenSize
      ensures this.curve == curve && this.layers == layers
      ensures MinProb() == minProb && this.maxProb == maxProb && iteration == 0
    {
      this.classes := classes;
      this.hiddenSize := hiddenSize;
      this.curve := curve;
      this.layers := layers;
      minProbComplement := 1.0 - minProb;
      this.maxProb := maxProb;
      iteration := 0;
    }

    /** The `min_prob` getter. */
    function MinProb(): (r: real)
      reads this
      ensures r + minProbComplement == 1.0
    {
      1.0 - minProbComplement
    }

    /** The `min_prob` setter: stores the complement, so reading back gives `v`. */
    method SetMinProb(v: real)
      modifies this
      ensures minProbComplement == 1.0 - v && MinProb() == v
      ensures maxProb == old(maxProb) && iteration == old(iteration)
    {
      minProbComplement := 1.0 - v;
    }

    function CurrentSchedule(): Schedule
      reads this
    {
      Schedule(MinProb(), maxProb, curve)
    }

    /** `scheduled_sampling`: the probability of feeding back the label at this iteration. */
    function ScheduledSampling(): (p: real)
      reads this
      ensures p <= maxProb
      ensures p >= Min(maxProb, 1.0 - MinProb())
      ensures p == CurrentSchedule().At(iteration)
    {
      Probability(MinProb(), maxProb, curve(iteration))
    }

    /**
     * One pass of the loop body of `forward`: draw the flags, advance the hidden rows,
     * classify, and write the feedback rows; the counter advances as `Step` says.
     */
    method TimeStep(inputs: Inputs, t: nat, h: seq<Row>, tf: array<Row>, flags: array<bool>)
      returns (h': seq<Row>, logits: seq<Row>)
      requires inputs.Valid() && t < inputs.steps
      requires |h| == |inputs.features| && tf.Length == |inputs.features| && flags.Length == |inputs.features|
      modifies this, tf, flags
      ensures minProbComplement == old(minProbComplement) && maxProb == old(maxProb)
      ensures StepState(h', tf[..], iteration)
              == Step(layers, old(CurrentSchedule()), inputs, StepState(h, old(tf[..]), old(iteration)), t)
      ensures logits == Logits(layers, h')
    {
      ghost var before := StepState(h, tf[..], iteration);
      var b := |inputs.features|;
      var prob := ScheduledSampling();
      forall i | 0 <= i < b {
        flags[i] := (inputs.draws[t][i] as real) / 1000.0 < prob;
      }
      assert flags[..] == Flags(inputs.draws[t], prob);
      var feedback := tf[..];
      h' := seq(b, i requires 0 <= i < b => layers.cell(inputs.features[i][t] + feedback[i], h[i]));
      assert h' == NextHidden(layers, inputs, before, t);
      logits := seq(b, i requires 0 <= i < b => layers.classify(h'[i]));
      var hard := HardRows(logits);
      var completed := WriteFeedback(tf, flags, inputs.labels, hard, t);
      if completed {
        iteration := iteration + 1;
      }
    }

    /**
     * The buffers of `forward`: `h`, `tf`, `flags` and `outputs`, all zero. The hidden state
     * is one zero row per example.
     */
    method Allocate(b: nat, steps: nat) returns (h: seq<Row>, tf: array<Row>, flags: array<bool>, outputs: array2<Row>)
      ensures fresh(tf) && fresh(flags) && fresh(outputs)
      ensures StepState(h, tf[..], iteration) == Initial(b, hiddenSize, classes, iteration)
      ensures flags.Length == b && outputs.Length0 == b && outputs.Length1 == steps
      ensures Columns(outputs, 0) == []
    {
      h := seq(b, _ => Zeros(hiddenSize));
      tf := new Row[b](_ => Zeros(classes));
      flags := new bool[b](_ => false);
      outputs := new Row[b, steps]((_, _) => Zeros(classes));
    }

    /**
     * The time-step loop of `forward`. `outputs[i, t]` receives the step-`t` logits of
     * example `i`; `tf` holds the feedback rows and is rewritten in place each step.
     */
    method Forward(inputs: Inputs) returns (outputs: array2<Row>)
      requires inputs.Valid()
      modifies this
      ensures fresh(outputs)
      ensures outputs.Length0 == |inputs.features| && outputs.Length1 == inputs.steps
      ensures minProbComplement == old(minProbComplement) && maxProb == old(maxProb)
      ensures var start := Initial(|inputs.features|, hiddenSize, classes, old(iteration));
              var schedule := Schedule(old(MinProb()), old(maxProb), curve);
              && iteration == StateAfter(layers, schedule, inputs, start, inputs.steps).iteration
              && Columns(outputs, inputs.steps) == Outputs(layers, schedule, inputs, start, inputs.steps)
    {
      var b := |inputs.features|;
      ghost var start := Initial(b, hiddenSize, classes, iteration);
      ghost var schedule := CurrentSchedule();
      var h, tf, flags;
      h, tf, flags, outputs := Allocate(b, inputs.steps);
      var t := 0;
      ghost var expected: seq<seq<Row>> := [];
      while t < inputs.steps
        invariant 0 <= t <= inputs.steps
        invariant CurrentSchedule() == schedule
        invariant StepState(h, tf[..], iteration) == StateAfter(layers, schedule, inputs, start, t)
        invariant expected == Outputs(layers, schedule, inputs, start, t)
        invariant Columns(outputs, t) == expected
      {
        ghost var before := StepState(h, tf[..], iteration);
        var logits;
        h, logits := TimeStep(inputs, t, h, tf, flags);
        ghost var after := StateAfter(layers, schedule, inputs, start, t + 1);
        assert after == Step(layers, schedule, inputs, before, t);
        WriteColumn(outputs, t, logits);
        expected := expected + [logits];
        t := t + 1;
      }
    }
  }
}
