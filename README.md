# SEDLM core, modelled in Dafny

This project models the sequential parts of SEDLM, a sound-event-detection system built on a
convolutional-recurrent network with teacher forcing. The network's layers are opaque
functions throughout. What is modelled and proved:

- **Frame-level metrics** (`metrics.dfy`, `metrics_twin.dfy`).
  - Predictions are thresholded at 0.5, and labels are compared with exactly 1 and 0, giving TP/TN/FP/FN masks.
  - F1, precision and recall are corpus-level ratios with float32's epsilon.
  - The error rate is the DCASE substitution/deletion/insertion rate.
  - The per-second variants cut the time axis to `t_thr * frames` steps, with `t_thr = floor(T / frames)`, and regroup it into blocks of `t_thr` frames.
- **Scheduled sampling in the teacher-forcing model** (`tf_crnn.dfy`).
  - The `min_prob` property stores its complement.
  - The probability of feeding back the ground truth is clamped.
  - The time-step loop of `forward` draws one flag per example and writes the feedback rows in place. It writes the output columns and advances the iteration counter.
- **The training driver** (`experiments.dfy`).
  - The batch loop of one pass over a data loader.
  - The testing pass.
  - The training loop, with early stopping on the validation loss, snapshotting and restoring the best parameters.
- **Sequence padding of the real-life datasets** (`real_life_dataset.dfy`): zero-row padding, reshaping into fixed-length sequences, and indexing.
- **File-index parsing** (`content.dfy`): `split`, indexing and `int()` on a file name.
- **The `CheckAllNone` decorator** (`various.dfy`).

`wrappers.dfy` holds the `Option` and `Result` types, and `tensors.dfy` the zero rows and `min` shared by the modules.

Tensors are sequences of rows, `seq<seq<real>>`, and arithmetic is exact. The functions of
`tools/_metrics.py` whose text is identical to their `tools/metrics.py` counterparts up to the
spelling of eps (`f1`, `tp_tf_fp_fn`, `f1_per_frame`, `error_rate_per_frame`) are defined
once, in module `Metrics`.
Module `MetricsTwin` uses them as they are.

Where the code and its docstrings disagree, the model follows the code.

- The docstrings of `min_prob` and `scheduled_sampling` (models/tf_crnn.py:65-68 and 129-133) call the scheduled value the probability of selecting the predictions. `forward` uses it the other way round: an example whose draw falls below it gets its label fed back (models/tf_crnn.py:109 and 119). The model calls it the probability of feeding back the label.
- `scheduled_sampling` returns `min(max_prob, 1 - min(min_prob, raw))`. Its lower bound is therefore `min(max_prob, 1 - min_prob)`, not `min_prob`.
- With a non-decreasing annealing curve, the probability of feeding back the label is non-increasing.

## Model

| member | source | states |
|---|---|---|
| Metrics.CellConfusion | tools/metrics.py:95-105 | A cell with label exactly 1 is a TP when the prediction is >= 0.5 and an FN otherwise. A cell with label exactly 0 is a TN when the prediction is < 0.5 and an FP otherwise. Any other label counts in no mask. |
| Metrics.TpTnFpFn | tools/metrics.py:78-113 | The four unreduced masks: one row per frame of the `view(-1, classes)` reading, and cell (i, j) holds the masks of prediction (i, j) against label (i, j). |
| Metrics.CountsCoverEveryCell | tools/metrics.py:101-105 | TP+TN+FP+FN over all cells is at most the cell count. It equals frames x classes when every label is 0 or 1. |
| Metrics.F1 | tools/metrics.py:57-75 | 0 when tp, fp and fn are all 0. Otherwise 2tp/(2tp+fp+fn+eps), which lies in [0, 1) and is 0 exactly when tp is 0. |
| Metrics.NoTruePositive | tools/metrics.py:28-29 | The corpus TP count is 0 exactly when no cell is predicted >= 0.5 with label 1. |
| Metrics.F1PerFrame | tools/metrics.py:14-33 | `f1_per_frame` lies in [0, 1). It is 0 exactly when no cell is a hit, which includes the all-zero-counts case. |
| Metrics.TotalsAppend | tools/metrics.py:28-31 | The whole-tensor counts of a concatenation of frames are the sums of the counts of the parts. |
| Metrics.TotalsReorder | tools/metrics.py:28-31 | Any permutation of the (prediction, label) frames leaves the whole-tensor counts unchanged. |
| Metrics.F1PerFrameReorder | tools/metrics.py:14-33 | Any permutation of the frames leaves `f1_per_frame` unchanged. |
| Metrics.ErrorNumerator | tools/metrics.py:49-51 | Per frame, min(fn,fp) + max(fn-fp,0) + max(fp-fn,0) summed over the frames equals the sum of max(fp,fn). |
| Metrics.ErrorRatePerFrame | tools/metrics.py:36-54 | The error rate is the sum over frames of max(fp, fn), divided by the label sum plus eps. |
| Metrics.ErrorRateNonNegative | tools/metrics.py:47-54 | With non-negative labels, the denominator is positive and the error rate is >= 0. |
| Metrics.ErrorRateZeroOnExactMatch | tools/metrics.py:47-54 | When every thresholded prediction equals its 0/1 label, the error rate is 0. |
| Metrics.LabelSumCountsPositives | tools/metrics.py:52 | With 0/1 labels, the denominator's label sum is TP + FN. |
| Metrics.OneFrameScenario | tools/metrics.py:14-33 | One frame holding one TP, TN, FP and FN gives F1 = 2/(4+eps). |
| Metrics.FramingScenario | tools/metrics.py:36-54 | A miss and a false alarm count as one substitution in a single frame (error rate 1/(1+eps)). Across two frames they count as a deletion plus an insertion (2/(1+eps)). F1 is 0 both ways. |
| MetricsTwin.Precision | tools/_metrics.py:117-132 | 0 when tp and fp are both 0. Otherwise tp/(tp+fp+eps), in [0, 1), and 0 exactly when tp is 0. |
| MetricsTwin.Recall | tools/_metrics.py:135-150 | 0 when tp and fn are both 0. Otherwise tp/(tp+fn+eps), in [0, 1), and 0 exactly when tp is 0. |
| MetricsTwin.F1AtLeastMinPrecisionRecall | tools/_metrics.py:50-68 | `f1` is never below the smaller of `precision` and `recall` of the same counts. |
| MetricsTwin.CountsAgree | tools/_metrics.py:153-188 | On 0/1 predictions and labels, the TP, FP and FN masks sum to the whole-number hit, false-alarm and miss counts. |
| MetricsTwin.F1CloseToMicro | tools/_metrics.py:50-68 | On whole-number counts, `f1` lies below the exact micro-averaged F1 by at most eps. |
| MetricsTwin.SelfCheck | tools/_metrics.py:235-255 | On 0/1 matrices, `f1_per_frame` agrees with micro-averaged F1 up to eps, and is never above it. |
| MetricsTwin.TruncateSteps | tools/_metrics.py:89-90 | `y[:, :n, :]` keeps the tensor well formed, with n steps, the same classes and the same batches. |
| MetricsTwin.Chunks | tools/_metrics.py:89-90 | `view(-1, k, classes)` of n*k rows gives n blocks of k rows. |
| MetricsTwin.FlattenChunks | tools/_metrics.py:89-92 | Reading the blocks back row by row gives the original rows in order. |
| MetricsTwin.WholeSeconds | tools/_metrics.py:87-90 | The cut keeps floor(T / frames) * frames time steps. |
| MetricsTwin.SecondBlocks | tools/_metrics.py:87-90 | The view fails exactly when t_thr * classes is 0. |
| MetricsTwin.SecondBlocksFrames | tools/_metrics.py:89-92 | The blocks of `t_thr` frames, read back as rows, are the frames of the truncated tensor. |
| MetricsTwin.F1PerSecond | tools/_metrics.py:71-92 | Fails exactly when the view cannot infer its first size. |
| MetricsTwin.F1PerSecondIsPerFrame | tools/_metrics.py:71-92 | `f1_per_second` equals `f1_per_frame` of the frames of the first floor(T / frames) * frames time steps. |
| MetricsTwin.ErrorRatePerSecond | tools/_metrics.py:191-209 | Fails exactly when the view cannot infer its first size. |
| MetricsTwin.ErrorRatePerSecondIsPerFrame | tools/_metrics.py:191-232 | `error_rate_per_second` equals `error_rate_per_frame` of the same truncated frames. |
| MetricsTwin.F1PerSecondWhole | tools/_metrics.py:71-114 | When frames divides T (T, classes > 0), `f1_per_second` is `f1_per_frame` of the whole tensor. |
| TeacherForcing.Probability | models/tf_crnn.py:138 | The probability is at most max_prob, at least min(max_prob, 1 - min_prob), and at most 1 - min(min_prob, raw). |
| TeacherForcing.ProbabilityAtStart | models/tf_crnn.py:136-138 | With a curve value of 0 and min_prob >= 0, the probability is min(max_prob, 1). |
| TeacherForcing.ProbabilityAntitone | models/tf_crnn.py:138 | A higher curve value never raises the probability. |
| TeacherForcing.ScheduleAtStart | models/tf_crnn.py:136-138 | At iteration 0, with curve(0) = 0, the schedule gives min(max_prob, 1). |
| TeacherForcing.ScheduleNonIncreasing | models/tf_crnn.py:136-138 | With a non-decreasing curve, the probability at a later iteration is at most that at an earlier one. |
| TeacherForcing.Hard | models/tf_crnn.py:115 | Each entry is 1 exactly when the logit is > 0, which is `sigmoid > 0.5`, and 0 otherwise. |
| TeacherForcing.Flags | models/tf_crnn.py:109 | Example i is flagged exactly when its draw is below 1000 * prob. For draws in 0..1000, a probability above 1 flags every example, and one at or below 0 flags none. |
| TeacherForcing.WriteFeedback | models/tf_crnn.py:117-122 | After the row loop or its TypeError handler, `tf` is exactly `NextFeedback`. The returned flag, which advances the counter, is `Advances`: false exactly when a flagged row finds no labels. |
| TeacherForcing.WriteColumn | models/tf_crnn.py:124 | `outputs[:, t]` receives the rows, and the earlier columns are kept. |
| TeacherForcing.OutputsAt | models/tf_crnn.py:112-124 | Column k of the outputs is the classifier applied to the hidden rows after step k. |
| TeacherForcing.LabelsAdvanceEveryStep | models/tf_crnn.py:117-120 | With labels, the counter grows by exactly one per time step. |
| TeacherForcing.LabelFeedback | models/tf_crnn.py:109-119 | With labels, example i's feedback after step k is its label row when its draw r has r/1000 < prob. Otherwise it is its hard prediction. |
| TeacherForcing.NoLabelsFeedbackIsHard | models/tf_crnn.py:117-122 | Without labels, the feedback after every step is the hard prediction of every example. |
| TeacherForcing.NoLabelsIteration | models/tf_crnn.py:117-122 | Without labels, the counter advances on exactly the steps where no example is flagged. It stays within t of its start, and reaches start + t exactly when no step flagged anyone. |
| TeacherForcing.TFCRNN.constructor | models/tf_crnn.py:52-56 | Reading `min_prob` back gives the configured value. `max_prob` is stored and the counter starts at 0. |
| TeacherForcing.TFCRNN.MinProb | models/tf_crnn.py:64-71 | The getter returns the complement of the stored field. |
| TeacherForcing.TFCRNN.SetMinProb | models/tf_crnn.py:73-80 | The stored field is 1 - v, and the getter then returns v. Nothing else changes. |
| TeacherForcing.TFCRNN.ScheduledSampling | models/tf_crnn.py:128-138 | At most max_prob, and at least min(max_prob, 1 - min_prob). It is the schedule at the current counter. |
| TeacherForcing.TFCRNN.TimeStep | models/tf_crnn.py:108-122 | One loop pass takes the hidden rows, the feedback rows and the counter to `Step` of the previous state, and returns that step's logits. |
| TeacherForcing.TFCRNN.Allocate | models/tf_crnn.py:100-104 | `h` and `tf` start at zero on every call, with one row per example. `outputs` is b x steps and empty so far. |
| TeacherForcing.TFCRNN.Forward | models/tf_crnn.py:82-126 | The counter ends where the step-by-step specification puts it, and `outputs[:, t]` holds the step-t logits for every t. min_prob and max_prob are unchanged. |
| Experiments.Model.constructor | tools/_experiments_processes.py:148 | A fresh model is in training mode, with the given network and parameters. |
| Experiments.Clip | tools/_experiments_processes.py:59-60 | The gradient is clipped exactly when grad_norm > 0, to grad_norm. |
| Experiments.BatchStep | tools/_experiments_processes.py:47-64 | Parameters change only with both an objective and an optimizer. Without an objective the loss is 0. |
| Experiments.EpochAfter | tools/_experiments_processes.py:41-71 | After n batches there is one loss per batch, and the labels are the batches' labels concatenated in loader order. |
| Experiments.SedEpoch | tools/_experiments_processes.py:21-73 | The loss array, the concatenated labels and predictions, and the new parameters are those of `Epoch`. Loss e is batch e's loss. The mode is unchanged. `torch.cat` raises exactly when the loader is empty. |
| Experiments.ProcessBatch | tools/_experiments_processes.py:47-66 | One loop body predicts, scores and updates as `BatchStep` says. |
| Experiments.NoUpdateKeepsParams | tools/_experiments_processes.py:55-61 | Without an optimizer or without an objective, a pass leaves the parameters unchanged. |
| Experiments.NoObjectiveZeroLosses | tools/_experiments_processes.py:63-66 | Without an objective, every recorded loss is 0. |
| Experiments.TestingPredictsWithoutLabels | tools/_experiments_processes.py:53-71 | A testing pass without updates predicts every batch from the same parameters, with no labels, in loader order. |
| Experiments.Testing | tools/_experiments_processes.py:76-101 | Evaluation mode and unchanged parameters. An empty loader raises. Otherwise the scores are the two functions of the label-free predictions and the concatenated labels. |
| Experiments.Mean | tools/_experiments_processes.py:168 | The mean is undefined (NaN) exactly for an empty list of losses. A pass over an empty loader raises before its mean is taken, so the validation losses of `training` are numbers. |
| Experiments.Observe | tools/_experiments_processes.py:173-179 | The best loss never rises and the counter is reset to 0 or incremented. A changed snapshot is this epoch's parameters and epoch number. |
| Experiments.Replay | tools/_experiments_processes.py:141-179 | After n epochs the best loss is at most 1e8 and the best epoch lies in [-1, n). There is a snapshot exactly when the best epoch is not -1, and it holds that epoch's parameters. |
| Experiments.ReplayTracks | tools/_experiments_processes.py:141-179 | Before any loss below 1e8 there is no snapshot and the counter is 100 + n. After that, the best loss is the minimum seen, first reached at bestEpoch, whose parameters are the snapshot, and the counter is the number of epochs since. |
| Experiments.BestNonIncreasing | tools/_experiments_processes.py:173-174 | The best loss after n epochs is at most the best loss after m <= n epochs. |
| Experiments.FirstEpochStops | tools/_experiments_processes.py:141-193 | A first loss not below 1e8, with patience <= 101, leaves the counter at patience or more and no snapshot after epoch 0. |
| Experiments.EpochCount | tools/_experiments_processes.py:145 | `range(epochs)` runs `epochs` epochs when positive, and none otherwise. |
| Experiments.TrainAndValidate | tools/_experiments_processes.py:148-168 | An empty training loader raises in training mode, after an empty pass. Otherwise the parameters are those after a training pass with updates, the model is in evaluation mode, and an empty validation loader raises. If neither raises, the loss is the mean validation loss of a label-free pass without updates. |
| Experiments.RunEpoch | tools/_experiments_processes.py:145-179 | One loop iteration raises exactly when a loader is empty. Otherwise it takes the bookkeeping and the parameters from epoch run to epoch run + 1 of the replayed specification. |
| Experiments.EpochLoop | tools/_experiments_processes.py:145-199 | The run ends after `epochs` epochs, after the first epoch whose counter reaches the patience, or at the interruption, and not earlier. It raises in epoch 0, before any bookkeeping, exactly when a loader is empty and that epoch starts. The bookkeeping is the replay of the epochs run, and after an epoch the model is in evaluation mode. |
| Experiments.Training | tools/_experiments_processes.py:106-211 | The network is unchanged. The RuntimeError of an empty loader escapes with the parameters of one training pass and no snapshot restored. On a normal exit or an interruption, the model holds the last snapshot if one was taken, otherwise the parameters as trained. It is in evaluation mode once an epoch has run, and otherwise in its original mode. |
| RealLifeDataset.Padding | data_feeders/_real_life_dataset.py:50-54 | seq_len - red lies in (0, seq_len], and is seq_len exactly when the row count is divisible. |
| RealLifeDataset.SequenceCount | data_feeders/_real_life_dataset.py:50-54 | (N div seq_len + 1) * seq_len is the padded row count, so that count is a multiple of seq_len. |
| RealLifeDataset.PadRows | data_feeders/_real_life_dataset.py:52-57 | The first N rows keep their order, and every appended row is zero. |
| RealLifeDataset.Reshape | data_feeders/_real_life_dataset.py:54-57 | `reshape((-1, seq_len, width))` fails when the width is 0 or seq_len does not divide the row count. Otherwise it gives sequences of seq_len rows that read back, row by row, as the rows. |
| RealLifeDataset.Sequences | data_feeders/_real_life_dataset.py:50-57 | seq_len 0 is a ZeroDivisionError and a negative seq_len a negative-dimensions error. A width of 0 makes the reshape fail. Otherwise there are N div seq_len + 1 sequences of seq_len rows, which read back as the padded rows. |
| RealLifeDataset.SequenceAt | data_feeders/_real_life_dataset.py:52-57 | Sequence i is padded rows i*seq_len up to (i+1)*seq_len. |
| RealLifeDataset.DivisibleAddsZeroSequence | data_feeders/_real_life_dataset.py:50-57 | When N is divisible by seq_len, the last sequence is all zeros. |
| RealLifeDataset.Dataset.GetItem | data_feeders/_real_life_dataset.py:67-76 | Succeeds exactly when the index, negative ones counting from the end, is in range for both x and y, and returns (x[i], y[i]). |
| RealLifeDataset.Index | data_feeders/_real_life_dataset.py:76 | numpy indexing: in range for -len <= i < len, with negative indices counting from the end. |
| RealLifeDataset.Load | data_feeders/_real_life_dataset.py:50-57 | The features fail first, with their own error. The targets are padded by seq_len - red, red being the remainder of the features' row count. They reshape exactly when that padded count is a multiple of seq_len and their width is not 0, and then read back as the padded targets. |
| RealLifeDataset.LoadAligned | data_feeders/_real_life_dataset.py:50-76 | Equal row counts give equal sequence counts. `__len__` is that count, and item i is padded rows i*seq_len .. (i+1)*seq_len of both. |
| RealLifeDataset.LoadMismatch | data_feeders/_real_life_dataset.py:50-57 | Targets whose row count leaves a different remainder mod seq_len from the features' fail to reshape. |
| Content.FindFrom | tools/_content.py:17 | The first occurrence of the separator at or after a position, or none. |
| Content.Split | tools/_content.py:17 | `split(sep)` gives at least one piece, and no piece contains sep. |
| Content.JoinSplit | tools/_content.py:17 | Joining the pieces of `split` with the separator gives back the string. |
| Content.FirstPiece | tools/_content.py:17 | `split(sep)[0]` is a prefix without sep, followed by sep unless it is the whole string. |
| Content.SplitAt | tools/_content.py:17 | Splitting at the first occurrence i gives s[..i] followed by the split of what comes after the separator. |
| Content.LastPiece | tools/_content.py:17 | `split(sep)[-1]` is a suffix without sep, preceded by sep unless it is the whole string. |
| Content.LastPieceAfterSeparator | tools/_content.py:17 | For a separator that cannot overlap itself, such as 'mix_', the last piece of a + sep + b is b when b has no sep. |
| Content.FirstPieceBeforeSeparator | tools/_content.py:17 | The first piece of text + sep + s is text when no character of text starts sep. |
| Content.StripLeft | tools/_content.py:17 | `lstrip`: a suffix that starts with no whitespace. |
| Content.StripRight | tools/_content.py:17 | `rstrip`: a prefix that ends with no whitespace. |
| Content.Strip | tools/_content.py:17 | `int()` drops the surrounding whitespace: the result neither starts nor ends with whitespace. |
| Content.ParseLiteral | tools/_content.py:17 | Succeeds exactly when, after an optional sign, the text is digits with single underscores between them. |
| Content.ParseInt | tools/_content.py:17 | Succeeds only on a non-empty stripped text. |
| Content.Decimal | tools/_content.py:17 | `str(n)` is a non-empty string of digits. |
| Content.DecimalValue | tools/_content.py:17 | The digits of `str(n)` denote n. |
| Content.DigitTextValue | tools/_content.py:17 | `int()` of a non-empty run of ASCII digits is its decimal value. |
| Content.ParseDecimal | tools/_content.py:17 | `int(str(n)) == n`. |
| Content.ParseEmpty | tools/_content.py:17 | `int('')` is a ValueError. |
| Content.IndexText | tools/_content.py:17 | The index text comes after the last 'mix_', or from the start of a name without one. It is the part before the first '_no' of that remainder, or all of it, and contains no '_no'. |
| Content.GetFileIndex | tools/_content.py:9-17 | Succeeds exactly when the stripped index text, without its sign, is digits with single underscores between them. A non-empty all-digit index text gives its decimal value. |
| Content.IndexTextOfDigits | tools/_content.py:17 | For p + 'mix_' + digits + '_no' + s with no 'mix_' in s, the index text is the digits. |
| Content.FileIndexRoundTrip | tools/_content.py:9-17 | `get_file_index(p + 'mix_' + str(n) + '_no' + s) == n` for n >= 0 and any s without 'mix_'. |
| Content.EmptyIndexFails | tools/_content.py:17 | Nothing between 'mix_' and '_no' makes the call fail. |
| Various.Elements | tools/various.py:20 | `list(v)` succeeds exactly on containers and strings: the items of a list, the characters of a string. |
| Various.ListOf | tools/various.py:20 | `list(*args)`: no argument gives [], one is iterated, two or more are a TypeError. |
| Various.Collected | tools/various.py:20-21 | The collected list is `list(*args)` followed by the keyword values. It fails exactly when `list()` fails. |
| Various.AllNone | tools/various.py:23 | True exactly when every collected value is None. |
| Various.CheckAllNone.constructor | tools/various.py:15-17 | No function is stored yet. |
| Various.CheckAllNone.Call | tools/various.py:28-30 | The wrapped function is stored. |
| Various.CheckAllNone.Decorated | tools/various.py:19-26 | AssertionError exactly when collection succeeds and every value is None. Otherwise, with a function stored, returns the function's result on the original arguments, unchanged. |
| Various.NoArgumentsRefused | tools/various.py:20-25 | A call with no arguments at all is refused, since `all` of an empty list is true. |
| Various.KeywordsOnly | tools/various.py:20-26 | With only keyword arguments, the call goes through exactly when one of them is not None. |
| Various.TwoPositionalRefused | tools/various.py:20 | Two or more positional arguments make `list()` raise TypeError. |
| Various.SingleNoneNotIterable | tools/various.py:20 | A single None positional argument is a TypeError, not the AssertionError. |
| Various.NonEmptyStringPasses | tools/various.py:20-26 | A single non-empty string passes whatever the keywords are, and reaches the wrapped function. |

## Left out

- The network's layers and the training numerics are opaque parameters. This covers the CNN, dropout, GRUCell and Linear, the loss, back-propagation, Adam and `clip_grad_norm_`, all of which are floating-point library code.
  - A pass of the network is a function of (parameters, inputs, optional labels).
  - An optimizer step is a function of (parameters, batch, optional clipping norm).
  - The optimizer's internal state (the Adam moments) and `zero_grad` are not modelled.
- The exponential annealing curve of `scheduled_sampling` is an opaque function of the iteration counter. The batch counter and gamma are folded into it.
- The random integers of `random_(0, 1001)` are an input: one sequence of draws per time step.
- `sigmoid(x) > 0.5` is modelled as `x > 0`. Float rounding of the sigmoid near 0 is not modelled.
- In `forward`, `h` starts as one zero vector of the hidden size, shared by the batch. For a batch of more than one example, GRUCell's check that the hidden batch matches the input batch would raise there. The model gives every example its own zero hidden row, and the GRU cell acts row by row.
- `tf` is sized with `self.output_size`, which the class never defines. The model uses `nb_classes`, the width the GRU input expects.
- Experiments.Training: the `iteration` counter of the teacher-forcing model is an attribute outside the state dictionary. Its advance during training passes is not tracked in the experiments model, whose parameters are the state dictionary alone.
- Experiments.Training: a keyboard interrupt is modelled only as arriving at the start of an epoch. An interrupt in the middle of a pass, with partly updated parameters, is not modelled.
- The training and validation F1 and error-rate scores of each epoch, and the timing, are only printed. They are left out, as is all console output.
- `.mean()` of the scores in `testing`: the score functions are passed in and their result is taken as the score.
- Reading the feature and target matrices from pickle files and building their paths. The matrices are parameters.
- Content.ParseInt: `int()` also accepts non-ASCII whitespace and digits. The model covers only ASCII.
- Various.Value: Python values are reduced to None, integers, strings and lists. `list(*args)` of other iterables (dicts, tuples, generators) is modelled as a `List` of their items.
- Various.CheckAllNone.Decorated: exceptions raised by the wrapped function itself are not modelled.
- Metrics.ErrorRatePerFrame: requires that the label sum plus eps is not 0. Torch would divide by zero and return inf or NaN there. This can only happen with negative label values.
- MetricsTwin.ErrorRatePerSecond: the same requirement, on the frames it keeps.
- MetricsTwin.F1PerSecond: requires frames > 0. With frames = 0 the source divides a float tensor by zero, and converting the infinite or NaN `t_thr` to an integer has no defined result.
- MetricsTwin.ErrorRatePerSecond: requires frames > 0, for the same reason.
- The `accuracy` function and the `main` of `tools/_metrics.py` (scikit-learn calls and printing). Its comparison with micro-averaged F1 is stated as `MetricsTwin.SelfCheck`.
- `experiment` in `tools/_experiments_processes.py`, the data-loader glue and the entry points only wire the parts above together.
- The baseline `models/crnn.py` is a time-step fold over opaque cells with nothing beyond shapes to state.
