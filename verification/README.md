# xnmt training tracker and encoder control layer, in Dafny

This project models two pieces of deterministic control logic from the xnmt neural machine
translation toolkit and proves properties about them.

- **The loss tracker** (`xnmt/loss_tracker.py`) is the training-progress state machine. It keeps
  per-epoch sentence and word counters and two "sentences since the last report" counters, one for
  training reports and one for dev reports. It decides when a training report or a dev evaluation
  is due, and it keeps the best dev score seen so far. The minibatch tracker's word counter counts
  the target tokens that are not the end-of-sequence sentinel.
- **The encoder control layer** (`xnmt/encoder.py`) is a closed family of encoders: identity, LSTM,
  residual LSTM, pyramidal LSTM, convolutional bi-RNN, modular and segmenting. The recurrent and
  convolutional builders are foreign, so each one is an opaque total function on sequences plus the
  dropout rate last set on it. The model keeps the logic the encoder file owns:
  - `value or default` option fallback;
  - train/eval dropout switching, including its recursive broadcast through modular encoders;
  - ordered composition of modules;
  - the default "no reinforcement loss";
  - the segmenting encoder's epoch counter and its clamped loss weight (`lmbd_val`), computed
    over exact reals.

Modules:
- `Wrappers` holds `Option` and `Result`.
- `Python` holds the Python semantics the code relies on: floored `%`, `or` fallback, and the two
  exception kinds the code can raise.
- `WordCount` covers `count_trg_words` and `count_sent_num`.
- `LossTracker` holds the tracker record and its transitions. `TrackerProperties` holds the lemmas
  that relate several transitions.
- `LambdaSchedule` is the segmenting encoder's weight schedule.
- `Encoders` holds the encoder datatype and its operations. `EncoderProperties` holds the recursive
  and compositional lemmas.

Every tracker operation is a pure function on an immutable record. An operation that can raise in
Python returns a `Result`, with one of two errors:
- `AttributeError` when `total_train_sent` is read before any epoch of the tracker's own regimen
  started, or when `better_than` is called on a dev score that was never set;
- `ZeroDivisionError` when the fractional epoch or the dev modulo divides by zero.

The dev score type is a type parameter. The score's `better_than` method is a function parameter
`better: (S, Option<S>) -> bool`. The regimen identity (`is`) is a natural-number id. Inputs that
come from outside the model are parameters:
- the end-of-sequence id `es` (the vocabulary is not part of this model);
- the model-wide defaults (`Globals`);
- the builders' computations;
- the segmenting builder's reinforcement loss.

Edge cases of the code that the model reproduces:
- The segmenting encoder stores its start weight `lmbd["start"]` unclamped. The schedule and its
  `[min, max]` bound apply from the first epoch hook on (`LambdaSchedule.EpochsFromInit`), not to
  the freshly built encoder.
- When `min > max`, the clamp (first `min(v, max)`, then `max(·, min)`) yields `min`.
- With `eval_dev_every < 0`, `should_report_dev` uses the once-per-epoch rule. The dev report
  reduces the counter with Python's floored `%` by the negative period, so the counter becomes
  non-positive. `LossTracker.ReportDevAndCheckModel` states this case and `LossTracker.Valid`
  allows it.
- Omitted constructor options take the Python signature defaults. The LSTM encoder's omitted
  input size falls back to the model-wide layer size. The residual and pyramidal encoders'
  omitted input size is the fixed 512 (`EncoderProperties.OmittedInputSizes`).

## Model

| member | source | states |
|---|---|---|
| `Python.Mod` | xnmt/loss_tracker.py:135 | Python's `%`: the remainder has the divisor's sign and lies strictly within it, in the same residue class as the dividend |
| `Python.Or` | xnmt/encoder.py:53-55 | `value or default`: `None` and zero give the default; any other value is kept |
| `WordCount.CountTrgWords` | xnmt/loss_tracker.py:180-187 | the nested counting loop equals the recursive count, which equals the number of ids in the flattened batch minus the sentinel's multiplicity |
| `WordCount.TrgWordsIsNonSentinelOfFlatten` | xnmt/loss_tracker.py:180-187 | a bare id counts 1 unless it is the sentinel, and a sentence counts its non-sentinel ids; in total this is the flattened batch's length minus the sentinel occurrences |
| `WordCount.TrgWordsBounded` | xnmt/loss_tracker.py:180-187 | the count is between 0 and the total number of ids |
| `WordCount.AllSentinelCountsNothing` | xnmt/loss_tracker.py:180-187 | a batch made only of sentinels counts 0 |
| `WordCount.NoSentinelCountsAll` | xnmt/loss_tracker.py:180-187 | a batch without the sentinel counts every id |
| `WordCount.CountSentNum` | xnmt/loss_tracker.py:189-190 | the number of sentences in a batch is the length of its source list |
| `LossTracker.Init` | xnmt/loss_tracker.py:18-43 | a new tracker has all counters, the dev word count and the fractional epoch at zero, no epoch size, no dev score and no best score, and satisfies the tracker invariant |
| `LossTracker.OnNewEpoch` | xnmt/loss_tracker.py:46-59 | for its own regimen: epoch number plus one, epoch size recorded, words, sentences, both since-report counters and last-report words zeroed, best score and everything else kept. For any other regimen: nothing changes. Preserves the invariant for a non-negative epoch size |
| `LossTracker.UpdateEpochLoss` | xnmt/loss_tracker.py:61-70 | the three sentence counters grow by the batch's sentence count, and the epoch words grow by the batch's non-sentinel ids; nothing else changes; preserves the invariant |
| `LossTracker.ReportTrainProcess` | xnmt/loss_tracker.py:82-107 | fires iff 1000 sentences have passed since the last report or the epoch is complete. On firing: the counter keeps its remainder mod 1000 (so it is < 1000), last-report words catch up with the epoch words, the fractional epoch is recorded, and it returns true. Otherwise: it returns `None` and changes nothing. Fails exactly before any epoch starts, or on firing in a zero-sentence epoch; succeeds otherwise |
| `LossTracker.SetDevScore` | xnmt/loss_tracker.py:115-120 | records the dev score and dev word count, and nothing else |
| `LossTracker.ShouldReportDev` | xnmt/loss_tracker.py:122-126 | with a positive period: the period is reached, or the epoch is complete (the epoch size is read only in that second case). Otherwise: a whole epoch's worth of sentences has passed since the last dev report. Pure |
| `LossTracker.ReportDevAndCheckModel` | xnmt/loss_tracker.py:128-149 | the dev counter is reduced with floored `%` by the period (or by the epoch size when the period is 0). Returns `better(dev, best)`; the best score becomes the dev score exactly when that is true. Fails exactly when no epoch started, the epoch is empty, or no dev score was set |
| `LossTracker.ClearCounters` | xnmt/loss_tracker.py:166-169 | zeroes the three sentence counters; words, epoch number and best score are kept |
| `TrackerProperties.FeedAccumulates` | xnmt/loss_tracker.py:61-70 | feeding a sequence of batches adds their total sentences to the three counters and their total words to the epoch words, and changes nothing else |
| `TrackerProperties.FractionalEpochInRange` | xnmt/loss_tracker.py:92 | the fractional epoch lies in `[epoch_num - 1, epoch_num]` when `0 <= sent_num <= total_train_sent` and `total_train_sent > 0` |
| `TrackerProperties.TrainReportWithinEpoch` | xnmt/loss_tracker.py:87-92 | a training report fired within an epoch records a fractional epoch inside that epoch |
| `TrackerProperties.EpochEndDevCadence` | xnmt/loss_tracker.py:122-126 | with period 0: after an epoch of n sentences starts, a dev report is due exactly when at least n sentences have been fed |
| `TrackerProperties.FreshEpochTrainCadence` | xnmt/loss_tracker.py:87-88 | in a fresh epoch, a training report is due exactly when 1000 sentences have been fed or the epoch's size has been reached |
| `TrackerProperties.SameDevScoreSavedOnce` | xnmt/loss_tracker.py:144-149 | if no score beats itself, reporting the same dev score twice saves at most once: the second report answers false and keeps the best score |
| `LambdaSchedule.Init` | xnmt/encoder.py:140-141 | the counter starts at 0 and the weight at the configured start, unclamped |
| `LambdaSchedule.NewEpoch` | xnmt/encoder.py:154-159 | the counter advances by one. The weight depends only on the new counter and the bounds. It lies in `[min, max]` when `min <= max` and equals `min` when the bounds are crossed |
| `LambdaSchedule.EpochsFromInit` | xnmt/encoder.py:140-159 | after n epoch hooks from construction, the counter is n. The weight is the start value when n = 0 and `max(min(0.001*(2^n - 10), max), min)` when n ≥ 1 |
| `LambdaSchedule.ScheduleInRange` | xnmt/encoder.py:157-159 | with ordered bounds, every scheduled weight lies within them |
| `LambdaSchedule.ScheduleMonotone` | xnmt/encoder.py:157-159 | the scheduled weight never decreases from one epoch to a later one |
| `LambdaSchedule.EarlyEpochsAtMin` | xnmt/encoder.py:157-159 | in epochs 1 to 3 the raw weight is negative, so a non-negative lower bound is the weight |
| `Encoders.NewLstm` | xnmt/encoder.py:51-63 | input size, hidden size and dropout fall back to the model-wide defaults iff the option is `None` or zero (all three default to `None`; one layer and bidirectional by default). The builder is bidirectional or plain as requested, runs the given computation and gets the resolved sizes. No dropout is set yet |
| `Encoders.NewResidualLstm` | xnmt/encoder.py:71-79 | the hidden size and dropout fall back when `None` or zero. The input size has no fallback: it is used as given, 512 when omitted. The builder is the residual bidirectional or residual plain one and runs the given computation |
| `Encoders.NewPyramidalLstm` | xnmt/encoder.py:87-93 | the hidden size and dropout fall back when `None` or zero; the input size is used as given, 512 when omitted; the builder is pyramidal and runs the given computation |
| `Encoders.NewConvBiRnn` | xnmt/encoder.py:101-108 | as `init_builder` sets it up: input size and layers required, hidden size and dropout fall back when `None` or zero; the builder is convolutional bi-RNN and runs the given computation |
| `Encoders.NewSegmenting` | xnmt/encoder.py:137-143 | the counter is 0 and the weight is the configured start; the builder runs the given computation and has not been told a train flag yet |
| `EncoderProperties.OmittedInputSizes` | xnmt/encoder.py:51-87 | with every option omitted, the LSTM encoder's input size is the model-wide layer size, with one layer and a bidirectional builder, while the residual and pyramidal encoders' input size is 512 |
| `Encoders.Transduce` | xnmt/encoder.py:37-46 | identity returns the input; builder-backed and segmenting encoders return their builder's output on the input; a one-module modular encoder behaves as its module; a modular encoder of identities returns the input |
| `Encoders.TransduceAll` | xnmt/encoder.py:122-125 | the modular loop over only identity modules (or none) returns the input, and over one module equals that module |
| `Encoders.SetTrain` | xnmt/encoder.py:130-132 | a mode switch, at any nesting depth, changes only builder dropout rates and segmenting train flags, never what construction fixed |
| `Encoders.ModularSharedParams` | xnmt/encoder.py:119-120 | the modular encoder declares exactly one shared group, `{input_dim, modules.0.input_dim}`, whatever its modules |
| `Encoders.CalcReinforceLoss` | xnmt/encoder.py:33-34 | there is a loss term iff the encoder is segmenting, and then it is the builder's loss for the reward and the current weight, unchanged. Every other encoder, modular included, returns `None` |
| `Encoders.NewEpoch` | xnmt/encoder.py:154-159 | on a segmenting encoder it advances only the schedule: counter plus one, weight per schedule, builder untouched. Any other encoder has no such hook |
| `EncoderProperties.SetTrainDropout` | xnmt/encoder.py:65-132 | after `set_train(val)`, every builder at any nesting depth has the configured dropout when val holds and exactly 0.0 otherwise, and every segmenting builder has been told val |
| `EncoderProperties.SetTrainLastWins` | xnmt/encoder.py:130-132 | switching modes twice equals switching once to the later mode |
| `EncoderProperties.IdentityPassThrough` | xnmt/encoder.py:43-46 | the identity encoder returns its input and ignores mode switches |
| `EncoderProperties.ModularIsNested` | xnmt/encoder.py:122-125 | the modular encoder's output is `modules[n-1](... modules[0](sent))`, and the input itself when there are no modules |
| `EncoderProperties.ModularConcat` | xnmt/encoder.py:122-125 | composing over `a + b` equals composing over `b` after `a` |
| `EncoderProperties.IdentityNeutral` | xnmt/encoder.py:122-125 | an identity module can be removed from any position without changing the output |
| `EncoderProperties.FlattenNestedModular` | xnmt/encoder.py:122-125 | a modular encoder nested as the first module equals splicing in its modules |
| `EncoderProperties.ReinforceWeightAfterEpochs` | xnmt/encoder.py:151-159 | a fresh segmenting encoder after n epoch hooks passes its builder the start weight (n = 0) or the scheduled weight (n ≥ 1), within the bounds when they are ordered |
| `EncoderProperties.SharedParamsTieInputDims` | xnmt/encoder.py:119-120 | a configuration respects the modular encoder's declared groups iff its own input size equals its first module's whenever both are set |

## Left out

- Wall-clock time, `format_time`, words per second and the dev-report timing (`xnmt/loss_tracker.py:39-41, 59, 72-74, 93, 97, 105, 113, 133, 141`): nondeterministic. The unguarded division by the time delta is therefore not modelled.
- The loss accumulator `epoch_loss` and the loss-per-word and per-component lines: `LossBuilder` is not part of this model. So the division by `epoch_words` when a report fires with zero words is not modelled as an error.
- Logging: `print_log`, the report templates, `report_auxiliary_score`, the no-op `report_loss`, and the best-model log line. These produce output only.
- `new_dev`: it only sets a timestamp.
- Event-bus registration: `on_new_epoch` is a plain function taking a regimen id.
- LossTracker.ReportTrainProcess, LossTracker.ReportDevAndCheckModel: when Python raises after mutating an attribute, the model returns only the error. Examples are line 91 before line 92, and line 135 before line 136. The training loop does not survive either exception.
- WordCount.CountTrgWords: target elements other than an `int` or a list of ints are not modelled. For example, a `bool` is not `type(...) == int`, so the code then fails when it tries to iterate it.
- The numeric value of `Vocab.ES`: the vocabulary is not part of this model, so the sentinel is a parameter.
- Whether a first dev score beats an absent best depends on the score classes, which are not part of this model. `better` is uninterpreted.
- The builders' internals: the BiRNN, LSTM, residual, pyramidal, convolutional and segmenting builders are foreign. The model makes no claim about output length or shape, and only records the builder arguments it can see. `residual_to_output`, the pyramidal `downsampling_method`/`reduce_factor`, the convolution's channel, filter and stride arguments, and the segmenting encoder's `embed_encoder`/`segment_transducer` go only to those builders.
- Encoders.NewConvBiRnn: the class `ConvBiRNNBuilder` has no `__init__`, only `init_builder`. An instance on which `init_builder` was never called has no `builder` and no `dropout`, so its `set_train` and `transduce` raise `AttributeError`. The model only builds the encoder through `init_builder` and does not represent that uninitialised state.
- LossTracker.FractionalEpoch: `sent_num / total_train_sent` is a Python float division, but the model computes it as an exact real. The value is only stored and logged, so its rounding is not modelled.
- The residual encoder's `residual_to_output` option (default `False`) is passed only to the opaque builder and is not a parameter of `Encoders.NewResidualLstm`.
- The initial dropout a builder has before any `set_train` is foreign. It is modelled as "not set" (`None`).
- `ExpressionSequence` wrapping: it is taken as the identity on the sequence.
- Python falsy values other than `None` and numeric zero, such as `False` and `""`: options are typed numbers.
- `ModularEncoder.get_train_test_components`: it returns the module list; nothing to prove.
- `ModularEncoder`'s `input_dim` argument: the constructor discards it, so it does not appear in the datatype.
- `SegmentingEncoder` built with `lmbd=None` fails at `lmbd["start"]`. The model requires a configuration record.
- The unused `multiplier` entry, the commented-out multiplicative rule, and the `print` in `new_epoch`.
- LambdaSchedule.NewEpoch: exact reals, so floating-point rounding of `1e-3` is not modelled. Nor is the `OverflowError` raised once `2**ctr` exceeds the float range (ctr ≥ 1024).
- The abstract base classes' `NotImplementedError` paths: the closed datatypes rule them out.
