// The training driver: one pass over a data loader, evaluation on a test loader, and
// the epoch loop with early stopping on the validation loss.
//
// The network, the objective and the optimizer are opaque functions: the network maps
// parameters, inputs and (optionally) labels to predictions, the objective maps predictions
// and labels to a loss, and an optimizer step maps parameters, a batch and an optional
// clipping norm to new parameters.
module Experiments {
  import opened Wrappers
  import Metrics

  /** One example: frames by classes. */
  type Example = seq<seq<real>>
  /** The model's state dictionary. */
  type Params = seq<real>

  /** One batch of a data loader: inputs and labels, one entry per example. */
  datatype Batch = Batch(x: seq<Example>, y: seq<Example>)

  datatype Net = Net(forward: (Params, seq<Example>, Option<seq<Example>>) -> seq<Example>)

  type Objective = (seq<Example>, seq<Example>) -> real

  /** An optimizer step after back-propagation; the last argument is the clipping norm, if any. */
  datatype Optimizer = Optimizer(step: (Params, Batch, Option<real>) -> Params)

  /** A model object: the network, its parameters and its train/eval mode. */
  class Model {
    var params: Params
    var training: bool
    const net: Net

    /** A fresh module is in training mode. */
    constructor(net: Net, params: Params)
      ensures this.net == net && this.params == params && training
    {
      this.net := net;
      this.params := params;
      training := true;
    }
  }

  // ----- One pass over a data loader

  datatype BatchResult = BatchResult(params: Params, loss: real, yHat: seq<Example>)

  /** The clipping norm handed to the optimizer: present only for a positive `gradNorm`. */
  function Clip(gradNorm: real): (r: Option<real>)
    ensures r.Some? <==> gradNorm > 0.0
    ensures r.Some? ==> r.value == gradNorm
  {
    if gradNorm > 0.0 then Some(gradNorm) else None
  }

  /**
   * One batch: predict (with the labels unless testing), then, given an objective, the loss
   * and, given an optimizer as well, one parameter update; no objective records a loss of 0.
   */
  function BatchStep(net: Net, params: Params, batch: Batch, objective: Option<Objective>,
                     optimizer: Option<Optimizer>, isTesting: bool, gradNorm: real): (r: BatchResult)
    ensures r.params != params ==> objective.Some? && optimizer.Some?
    ensures objective.None? ==> r.loss == 0.0
  {
    var yHat := net.forward(params, batch.x, if isTesting then None else Some(batch.y));
    match objective
    case None => BatchResult(params, 0.0, yHat)
    case Some(loss) =>
      var next := if optimizer.Some? then optimizer.value.step(params, batch, Clip(gradNorm)) else params;
      BatchResult(next, loss(yHat, batch.y), yHat)
  }

  datatype EpochResult = EpochResult(params: Params, losses: seq<real>, trues: seq<Example>, hats: seq<Example>)

  /** The labels of the first `n` batches, concatenated in loader order. */
  function Labels(loader: seq<Batch>, n: nat): seq<Example>
    requires n <= |loader|
  {
    if n == 0 then [] else Labels(loader, n - 1) + loader[n - 1].y
  }

  /** The predictions the network makes without labels, at fixed parameters, for the first `n` batches. */
  function Predictions(net: Net, params: Params, loader: seq<Batch>, n: nat): seq<Example>
    requires n <= |loader|
  {
    if n == 0 then [] else Predictions(net, params, loader, n - 1) + net.forward(params, loader[n - 1].x, None)
  }

  /** The state of a pass after its first `n` batches. */
  function EpochAfter(net: Net, params: Params, loader: seq<Batch>, objective: Option<Objective>,
                      optimizer: Option<Optimizer>, isTesting: bool, gradNorm: real, n: nat): (r: EpochResult)
    requires n <= |loader|
    ensures |r.losses| == n
    ensures r.trues == Labels(loader, n)
  {
    if n == 0 then EpochResult(params, [], [], [])
    else
      var r := EpochAfter(net, params, loader, objective, optimizer, isTesting, gradNorm, n - 1);
      var b := BatchStep(net, r.params, loader[n - 1], objective, optimizer, isTesting, gradNorm);
      EpochResult(b.params, r.losses + [b.loss], r.trues + loader[n - 1].y, r.hats + b.yHat)
  }

  function Epoch(net: Net, params: Params, loader: seq<Batch>, objective: Option<Objective>,
                 optimizer: Option<Optimizer>, isTesting: bool, gradNorm: real): (r: EpochResult)
    ensures |r.losses| == |loader| && r.trues == Labels(loader, |loader|)
  {
    EpochAfter(net, params, loader, objective, optimizer, isTesting, gradNorm, |loader|)
  }

  /**
   * One pass over a loader: one loss per batch at the batch's index, labels and predictions
   * concatenated in loader order, and the parameters as the optimizer leaves them. The
   * concatenation is `torch.cat` of the per-batch lists, which raises a RuntimeError when the
   * loader yielded no batch: `raised` says so, and the caller's run ends there.
   */
  method SedEpoch(model: Model, loader: seq<Batch>, objective: Option<Objective>,
                  optimizer: Option<Optimizer>, isTesting: bool, gradNorm: real)
    returns (losses: array<real>, valuesTrue: seq<Example>, valuesHat: seq<Example>, raised: bool)
    modifies model
    ensures fresh(losses)
    ensures raised <==> |loader| == 0
    ensures model.training == old(model.training)
    ensures var r := Epoch(model.net, old(model.params), loader, objective, optimizer, isTesting, gradNorm);
            model.params == r.params && losses[..] == r.losses && valuesTrue == r.trues && valuesHat == r.hats
  {
    ghost var start := model.params;
    losses := new real[|loader|](_ => 0.0);
    valuesTrue := [];
    valuesHat := [];
    var e := 0;
    while e < |loader|
      invariant 0 <= e <= |loader|
      invariant model.training == old(model.training)
      invariant Recorded(model.net, start, loader, objective, optimizer, isTesting, gradNorm, e,
                         EpochResult(model.params, losses[..e], valuesTrue, valuesHat))
    {
      valuesTrue, valuesHat := RecordBatch(model, loader, objective, optimizer, isTesting, gradNorm,
                                           start, e, losses, valuesTrue, valuesHat);
      e := e + 1;
    }
    assert losses[..] == losses[..|loader|];
    raised := |loader| == 0;
  }

  /** What a pass has recorded after its first `e` batches: what `EpochAfter` says. */
  ghost predicate Recorded(net: Net, start: Params, loader: seq<Batch>, objective: Option<Objective>,
                           optimizer: Option<Optimizer>, isTesting: bool, gradNorm: real, e: nat, r: EpochResult)
    requires e <= |loader|
  {
    r == EpochAfter(net, start, loader, objective, optimizer, isTesting, gradNorm, e)
  }

  /** The body of the batch loop: batch `e` processed, its loss stored at `e`, its labels and predictions appended. */
  method RecordBatch(model: Model, loader: seq<Batch>, objective: Option<Objective>,
                     optimizer: Option<Optimizer>, isTesting: bool, gradNorm: real, ghost start: Params, e: nat,
                     losses: array<real>, valuesTrue: seq<Example>, valuesHat: seq<Example>)
    returns (trues: seq<Example>, hats: seq<Example>)
    requires e < |loader| == losses.Length
    requires Recorded(model.net, start, loader, objective, optimizer, isTesting, gradNorm, e,
                      EpochResult(model.params, losses[..e], valuesTrue, valuesHat))
    modifies model, losses
    ensures model.training == old(model.training)
    ensures Recorded(model.net, start, loader, objective, optimizer, isTesting, gradNorm, e + 1,
                     EpochResult(model.params, losses[..e + 1], trues, hats))
  {
    var loss, yHat := ProcessBatch(model, loader[e], objective, optimizer, isTesting, gradNorm);
    losses[e] := loss;
    trues := valuesTrue + loader[e].y;
    hats := valuesHat + yHat;
    assert losses[..e + 1] == old(losses[..e]) + [loss];
  }

  /** The body of the batch loop: predict, then score and update as `BatchStep` says. */
  method ProcessBatch(model: Model, batch: Batch, objective: Option<Objective>,
                      optimizer: Option<Optimizer>, isTesting: bool, gradNorm: real)
    returns (loss: real, yHat: seq<Example>)
    modifies model
    ensures model.training == old(model.training)
    ensures BatchStep(model.net, old(model.params), batch, objective, optimizer, isTesting, gradNorm)
            == BatchResult(model.params, loss, yHat)
  {
    yHat := model.net.forward(model.params, batch.x, if isTesting then None else Some(batch.y));
    if objective.Some? {
      loss := objective.value(yHat, batch.y);
      if optimizer.Some? {
        model.params := optimizer.value.step(model.params, batch, Clip(gradNorm));
      }
    } else {
      loss := 0.0;
    }
  }

  /** Without an optimizer, or without an objective, a pass leaves the parameters alone. */
  lemma {:induction false} NoUpdateKeepsParams(net: Net, params: Params, loader: seq<Batch>, objective: Option<Objective>,
                                               optimizer: Option<Optimizer>, isTesting: bool, gradNorm: real, n: nat)
    requires n <= |loader| && (objective.None? || optimizer.None?)
    ensures EpochAfter(net, params, loader, objective, optimizer, isTesting, gradNorm, n).params == params
  {
    if n > 0 {
      NoUpdateKeepsParams(net, params, loader, objective, optimizer, isTesting, gradNorm, n - 1);
    }
  }

  /** Without an objective every recorded loss is 0. */
  lemma {:induction false} NoObjectiveZeroLosses(net: Net, params: Params, loader: seq<Batch>,
                                                 optimizer: Option<Optimizer>, isTesting: bool, gradNorm: real, n: nat)
    requires n <= |loader|
    ensures forall k :: 0 <= k < n ==> EpochAfter(net, params, loader, None, optimizer, isTesting, gradNorm, n).losses[k] == 0.0
  {
    if n > 0 {
      NoObjectiveZeroLosses(net, params, loader, optimizer, isTesting, gradNorm, n - 1);
    }
  }

  /**
   * A testing pass without updates predicts every batch from the same parameters and
   * without its labels.
   */
  lemma {:induction false} TestingPredictsWithoutLabels(net: Net, params: Params, loader: seq<Batch>, objective: Option<Objective>,
                                                        optimizer: Option<Optimizer>, gradNorm: real, n: nat)
    requires n <= |loader| && (objective.None? || optimizer.None?)
    ensures EpochAfter(net, params, loader, objective, optimizer, true, gradNorm, n).hats == Predictions(net, params, loader, n)
  {
    if n > 0 {
      TestingPredictsWithoutLabels(net, params, loader, objective, optimizer, gradNorm, n - 1);
      NoUpdateKeepsParams(net, params, loader, objective, optimizer, true, gradNorm, n - 1);
    }
  }

  // ----- Testing

  /**
   * Evaluation mode, one pass with neither objective nor optimizer and without labels,
   * then the two scores of the concatenated predictions against the concatenated labels.
   * An empty loader raises in the pass, before any score is computed.
   */
  method Testing(model: Model, loader: seq<Batch>, f1Func: (seq<Example>, seq<Example>) -> real,
                 erFunc: (seq<Example>, seq<Example>) -> real)
    returns (f1: real, er: real, raised: bool)
    modifies model
    ensures model.params == old(model.params) && !model.training
    ensures raised <==> |loader| == 0
    ensures !raised ==> var hats := Predictions(model.net, model.params, loader, |loader|);
                        var trues := Labels(loader, |loader|);
                        f1 == f1Func(hats, trues) && er == erFunc(hats, trues)
  {
    model.training := false;
    var _, trues, hats, failed := SedEpoch(model, loader, None, None, true, 1.0);
    NoUpdateKeepsParams(model.net, old(model.params), loader, None, None, true, 1.0, |loader|);
    if failed {
      return 0.0, 0.0, true;
    }
    TestingPredictsWithoutLabels(model.net, old(model.params), loader, None, None, 1.0, |loader|);
    f1 := f1Func(hats, trues);
    er := erFunc(hats, trues);
    raised := false;
  }

  // ----- Early stopping

  /**
   * The mean of an epoch's losses; the mean of no losses is NaN, written `None`. A pass over an
   * empty loader raises before its mean is taken, so the passes of `training` never yield it.
   */
  function Mean(losses: seq<real>): (r: Option<real>)
    ensures r.None? <==> |losses| == 0
  {
    if |losses| == 0 then None else Some(Metrics.SumReals(losses) / |losses| as real)
  }

  /** The early-stopping bookkeeping: best loss, epochs waited, snapshot and its epoch. */
  datatype Tracker = Tracker(best: real, waiting: int, snapshot: Option<Params>, bestEpoch: int)

  const InitialBest: real := 100000000.0
  const Start := Tracker(InitialBest, 100, None, -1)

  /** A validation loss improves only when it is a number strictly below the best so far. */
  predicate Improves(t: Tracker, loss: Option<real>) {
    loss.Some? && loss.value < t.best
  }

  /** The bookkeeping after the validation loss of epoch `epoch`, whose parameters are `state`. */
  function Observe(t: Tracker, loss: Option<real>, epoch: nat, state: Params): (r: Tracker)
    ensures r.best <= t.best
    ensures r.waiting == 0 || r.waiting == t.waiting + 1
    ensures r.snapshot != t.snapshot ==> r.snapshot == Some(state) && r.bestEpoch == epoch
  {
    if Improves(t, loss) then Tracker(loss.value, 0, Some(state), epoch)
    else t.(waiting := t.waiting + 1)
  }

  /** The bookkeeping after the first `n` epochs, epoch `k` having loss `losses[k]` and parameters `states[k]`. */
  function Replay(losses: seq<Option<real>>, states: seq<Params>, n: nat): (r: Tracker)
    requires |losses| == |states| && n <= |losses|
    ensures r.best <= InitialBest && -1 <= r.bestEpoch < n
    ensures r.snapshot.None? <==> r.bestEpoch == -1
    ensures r.snapshot.Some? ==> r.snapshot.value == states[r.bestEpoch]
  {
    if n == 0 then Start else Observe(Replay(losses, states, n - 1), losses[n - 1], n - 1, states[n - 1])
  }

  /** Whether a loss is a number below the threshold the bookkeeping starts from. */
  predicate BelowStart(loss: Option<real>) {
    loss.Some? && loss.value < InitialBest
  }

  /**
   * What the bookkeeping after `n` epochs knows. Before any loss under 1e8 nothing is
   * snapshotted and the counter is 100 + n. From then on the best loss is the smallest loss
   * seen, first reached at `bestEpoch`, the snapshot holds that epoch's parameters, and the
   * counter is the number of epochs since.
   */
  ghost predicate Tracks(losses: seq<Option<real>>, states: seq<Params>, n: nat, t: Tracker)
    requires |losses| == |states| && n <= |losses|
  {
    if t.bestEpoch == -1 then
      && (forall k :: 0 <= k < n ==> !BelowStart(losses[k]))
      && t.best == InitialBest && t.snapshot.None? && t.waiting == 100 + n
    else
      && 0 <= t.bestEpoch < n
      && losses[t.bestEpoch] == Some(t.best) && t.best < InitialBest
      && t.snapshot == Some(states[t.bestEpoch])
      && t.waiting == n - 1 - t.bestEpoch
      && (forall k :: 0 <= k < n && losses[k].Some? ==> t.best <= losses[k].value)
      && (forall k :: 0 <= k < t.bestEpoch && losses[k].Some? ==> t.best < losses[k].value)
  }

  lemma {:induction false} ReplayTracks(losses: seq<Option<real>>, states: seq<Params>, n: nat)
    requires |losses| == |states| && n <= |losses|
    ensures Tracks(losses, states, n, Replay(losses, states, n))
  {
    if n > 0 {
      ReplayTracks(losses, states, n - 1);
      var t := Replay(losses, states, n - 1);
      if t.bestEpoch == -1 && Improves(t, losses[n - 1]) {
        assert BelowStart(losses[n - 1]);
      }
    }
  }

  /** The best loss never goes up from one epoch to a later one. */
  lemma {:induction false} BestNonIncreasing(losses: seq<Option<real>>, states: seq<Params>, m: nat, n: nat)
    requires |losses| == |states| && m <= n <= |losses|
    ensures Replay(losses, states, n).best <= Replay(losses, states, m).best
  {
    if m < n {
      BestNonIncreasing(losses, states, m, n - 1);
    }
  }

  /**
   * Because the counter starts at 100, a first validation loss that is not below 1e8 stops a
   * run with patience at most 101 after its first epoch, with no snapshot.
   */
  lemma FirstEpochStops(losses: seq<Option<real>>, states: seq<Params>, patience: int)
    requires |losses| == |states| && 0 < |losses|
    requires !BelowStart(losses[0]) && patience <= 101
    ensures var t := Replay(losses, states, 1);
            t.waiting >= patience && t.snapshot.None? && t.best == InitialBest
  {
    assert Replay(losses, states, 0) == Start;
  }

  /** Everything a run of `training` is handed besides the model and the epoch limits. */
  datatype Setup = Setup(net: Net, trainLoader: seq<Batch>, validLoader: seq<Batch>,
                         objective: Objective, optimizer: Optimizer, gradNorm: real)

  /** The parameters after `k` training passes. */
  function TrainedParams(setup: Setup, params: Params, k: nat): Params {
    if k == 0 then params
    else Epoch(setup.net, TrainedParams(setup, params, k - 1), setup.trainLoader, Some(setup.objective),
               Some(setup.optimizer), false, setup.gradNorm).params
  }

  /** The validation loss of a set of parameters: the mean over a pass without labels or updates. */
  function ValidationLoss(setup: Setup, params: Params): Option<real> {
    Mean(Epoch(setup.net, params, setup.validLoader, Some(setup.objective), None, true, 1.0).losses)
  }

  /** Epoch `k`'s validation loss, for the first `n` epochs. */
  function Losses(setup: Setup, params: Params, n: nat): (r: seq<Option<real>>)
    ensures |r| == n
  {
    seq(n, k requires 0 <= k < n => ValidationLoss(setup, TrainedParams(setup, params, k + 1)))
  }

  /** Epoch `k`'s parameters after training, for the first `n` epochs. */
  function Snapshots(setup: Setup, params: Params, n: nat): (r: seq<Params>)
    ensures |r| == n
  {
    seq(n, k requires 0 <= k < n => TrainedParams(setup, params, k + 1))
  }

  /** The number of epochs `range(epochs)` runs. */
  function EpochCount(epochs: int): (r: nat)
    ensures r <= epochs || r == 0
    ensures epochs > 0 ==> r == epochs
  {
    if epochs < 0 then 0 else epochs
  }

  /** Whether a pass of `training` raises: one of its loaders yields no batch. */
  predicate HasEmptyLoader(setup: Setup) {
    |setup.trainLoader| == 0 || |setup.validLoader| == 0
  }

  /**
   * One epoch: a training pass with updates, then a validation pass in evaluation mode. An
   * empty training loader raises in training mode, before the validation pass.
   */
  method TrainAndValidate(model: Model, setup: Setup) returns (loss: Option<real>, raised: bool)
    requires model.net == setup.net
    modifies model
    ensures model.net == setup.net
    ensures raised <==> HasEmptyLoader(setup)
    ensures model.training <==> |setup.trainLoader| == 0
    ensures model.params == Epoch(setup.net, old(model.params), setup.trainLoader, Some(setup.objective),
                                  Some(setup.optimizer), false, setup.gradNorm).params
    ensures !raised ==> loss == ValidationLoss(setup, model.params)
  {
    model.training := true;
    var _, _, _, failed := SedEpoch(model, setup.trainLoader, Some(setup.objective), Some(setup.optimizer), false, setup.gradNorm);
    if failed {
      return None, true;
    }
    model.training := false;
    ghost var trained := model.params;
    var losses, _, _, failedValid := SedEpoch(model, setup.validLoader, Some(setup.objective), None, true, 1.0);
    NoUpdateKeepsParams(setup.net, trained, setup.validLoader, Some(setup.objective), None, true, 1.0, |setup.validLoader|);
    loss := Mean(losses[..]);
    raised := failedValid;
  }

  /** No epoch before the `run`-th (counting from 1) brought the counter up to `patience`. */
  ghost predicate NoEarlierStop(losses: seq<Option<real>>, states: seq<Params>, run: nat, patience: int)
    requires |losses| == |states| && run <= |losses|
  {
    forall k :: 0 < k < run ==> Replay(losses, states, k).waiting < patience
  }

  lemma NoEarlierStopStep(losses: seq<Option<real>>, states: seq<Params>, run: nat, patience: int)
    requires |losses| == |states| && run < |losses|
    requires NoEarlierStop(losses, states, run, patience)
    requires 0 < run ==> Replay(losses, states, run).waiting < patience
    ensures NoEarlierStop(losses, states, run + 1, patience)
  {
  }

  /** One pass of the epoch loop: train, validate, and update the bookkeeping. */
  method RunEpoch(model: Model, setup: Setup, ghost start: Params, count: nat, run: nat, tracker: Tracker,
                  ghost losses: seq<Option<real>>, ghost states: seq<Params>)
    returns (next: Tracker, completed: nat, raised: bool)
    requires model.net == setup.net && run < count
    requires losses == Losses(setup, start, count) && states == Snapshots(setup, start, count)
    requires tracker == Replay(losses, states, run) && model.params == TrainedParams(setup, start, run)
    modifies model
    ensures completed == run + 1
    ensures raised <==> HasEmptyLoader(setup)
    ensures model.training <==> |setup.trainLoader| == 0
    ensures model.params == TrainedParams(setup, start, completed)
    ensures !raised ==> next == Replay(losses, states, completed)
  {
    completed := run + 1;
    var loss;
    loss, raised := TrainAndValidate(model, setup);
    if raised {
      return tracker, completed, true;
    }
    assert model.params == states[run] && loss == losses[run];
    next := Observe(tracker, loss, run, model.params);
  }

  /**
   * The epoch loop. It stops after the first epoch whose counter reaches `patience`, after
   * `epochs` epochs, or at an interruption arriving at the start of epoch `interrupt`; an
   * empty loader raises in the first epoch it reaches.
   */
  method EpochLoop(model: Model, setup: Setup, count: nat, patience: int, interrupt: Option<nat>,
                   ghost losses: seq<Option<real>>, ghost states: seq<Params>)
    returns (tracker: Tracker, run: nat, interrupted: bool, raised: bool)
    requires model.net == setup.net
    requires losses == Losses(setup, model.params, count) && states == Snapshots(setup, model.params, count)
    modifies model
    ensures run <= count && tracker == Replay(losses, states, run)
    ensures NoEarlierStop(losses, states, run, patience)
    ensures raised <==> HasEmptyLoader(setup) && 0 < count && interrupt != Some(0)
    ensures raised ==> run == 0 && !interrupted && (model.training <==> |setup.trainLoader| == 0)
    ensures interrupted ==> interrupt == Some(run) && run < count
    ensures !interrupted && !raised ==> run == count || (0 < run && tracker.waiting >= patience)
    ensures interrupt.Some? ==> run <= interrupt.value
    ensures model.params == TrainedParams(setup, old(model.params), if raised then 1 else run)
    ensures !raised && run == 0 ==> model.training == old(model.training)
    ensures 0 < run ==> !model.training
  {
    ghost var start := model.params;
    tracker := Start;
    run := 0;
    interrupted := false;
    raised := false;
    while run < count
      invariant run <= count && model.net == setup.net && !raised
      invariant tracker == Replay(losses, states, run)
      invariant model.params == TrainedParams(setup, start, run)
      invariant NoEarlierStop(losses, states, run, patience) && (0 < run ==> tracker.waiting < patience)
      invariant interrupt.Some? ==> run <= interrupt.value
      invariant 0 < run ==> !HasEmptyLoader(setup) && !model.training
      invariant run == 0 ==> model.training == old(model.training)
    {
      if interrupt.Some? && interrupt.value == run {
        interrupted := true;
        return;
      }
      assert interrupt.Some? ==> run + 1 <= interrupt.value;
      NoEarlierStopStep(losses, states, run, patience);
      var next, completed, failed := RunEpoch(model, setup, start, count, run, tracker, losses, states);
      if failed {
        raised := true;
        return;
      }
      tracker, run := next, completed;
      if tracker.waiting >= patience {
        return;
      }
    }
  }

  /**
   * `training`: the epoch loop, then, on every way out of it (including an interruption),
   * the last snapshot loaded into the model if one was taken. The RuntimeError of an empty
   * loader is not caught: it leaves `training` with the model as the failing pass left it.
   */
  method Training(model: Model, setup: Setup, epochs: int, patience: int, interrupt: Option<nat>)
    returns (tracker: Tracker, run: nat, interrupted: bool, raised: bool)
    requires model.net == setup.net
    modifies model
    ensures model.net == setup.net
    ensures var losses := Losses(setup, old(model.params), EpochCount(epochs));
            var states := Snapshots(setup, old(model.params), EpochCount(epochs));
            && run <= EpochCount(epochs)
            && tracker == Replay(losses, states, run)
            && NoEarlierStop(losses, states, run, patience)
            && (interrupted ==> interrupt == Some(run) && run < EpochCount(epochs))
            && (!interrupted && !raised ==> run == EpochCount(epochs) || (0 < run && tracker.waiting >= patience))
    ensures interrupt.Some? ==> run <= interrupt.value
    ensures raised <==> HasEmptyLoader(setup) && 0 < EpochCount(epochs) && interrupt != Some(0)
    ensures raised ==> && run == 0 && !interrupted && tracker == Start
                       && model.params == TrainedParams(setup, old(model.params), 1)
                       && (model.training <==> |setup.trainLoader| == 0)
    ensures !raised ==> model.params == if tracker.snapshot.Some? then tracker.snapshot.value
                                        else TrainedParams(setup, old(model.params), run)
    ensures !raised && run == 0 ==> model.training == old(model.training)
    ensures 0 < run ==> !model.training
  {
    var count := EpochCount(epochs);
    ghost var losses := Losses(setup, model.params, count);
    ghost var states := Snapshots(setup, model.params, count);
    tracker, run, interrupted, raised := EpochLoop(model, setup, count, patience, interrupt, losses, states);
    if raised {
      return;
    }
    if tracker.snapshot.Some? {
      model.params := tracker.snapshot.value;
    }
  }
}
