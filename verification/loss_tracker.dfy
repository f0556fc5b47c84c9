/**
 * The training-progress tracker: per-epoch sentence and word counters, the cadence at which
 * training and dev reports fire, and the best dev score seen so far.
 *
 * Every operation is a pure transition on an immutable `Tracker` record. Operations that can raise
 * in Python return a `Result`; an attribute that Python only creates later (the number of training
 * sentences, set by the first matching epoch start) is an `Option`.
 */
module LossTracker {
  import opened Wrappers
  import Python
  import WordCount

  /** Training progress is reported every this many sentences; the constructor fixes it. */
  const EvalTrainEvery: int := 1000

  /** Identity of a training regimen; trackers compare regimens by identity. */
  type RegimenId = nat

  /** The tracker's bookkeeping state. `S` is the dev score type, compared only through `better`. */
  datatype Tracker<S> = Tracker(
    regimen: RegimenId,
    evalDevEvery: int,
    epochNum: int,
    epochWords: int,
    sentNum: int,
    sentNumNotReportTrain: int,
    sentNumNotReportDev: int,
    fractionalEpoch: real,
    totalTrainSent: Option<int>,   // None until the first epoch start of the tracker's own regimen
    devScore: Option<S>,
    bestDevScore: Option<S>,
    devWords: int,
    lastReportWords: int)

  /** A new tracker state together with the value the operation returned. */
  datatype Reported<S, T> = Reported(tracker: Tracker<S>, value: T)

  /** One training batch as the tracker sees it: source sentences and the target tokens. */
  datatype Batch<X> = Batch(src: seq<X>, trg: seq<WordCount.Token>)

  /**
   * What every reachable tracker satisfies: counters since the last report never exceed the
   * epoch's sentence count, the train counter is non-negative, the dev counter is non-negative
   * unless a negative dev period drove it below zero, and the words counted at the last report
   * never exceed the epoch's words.
   */
  ghost predicate Valid<S>(t: Tracker<S>) {
    && t.epochNum >= 0
    && 0 <= t.sentNumNotReportTrain <= t.sentNum
    && t.sentNumNotReportDev <= t.sentNum
    && (t.evalDevEvery >= 0 ==> 0 <= t.sentNumNotReportDev)
    && 0 <= t.lastReportWords <= t.epochWords
    && (t.totalTrainSent.Some? ==> t.totalTrainSent.value >= 0)
  }

  /** The constructor: all counters zero, no epoch started yet, no dev score. */
  function Init<S>(regimen: RegimenId, evalEvery: int): (t: Tracker<S>)
    ensures t.regimen == regimen && t.evalDevEvery == evalEvery
    ensures t.epochNum == 0 && t.epochWords == 0 && t.sentNum == 0
    ensures t.sentNumNotReportTrain == 0 && t.sentNumNotReportDev == 0 && t.lastReportWords == 0
    ensures t.devWords == 0 && t.fractionalEpoch == 0.0
    ensures t.totalTrainSent == None && t.devScore == None && t.bestDevScore == None
    ensures Valid(t)
  {
    Tracker(regimen, evalEvery, 0, 0, 0, 0, 0, 0.0, None, None, None, 0, 0)
  }

  /**
   * Epoch start. Only an event from the tracker's own regimen has any effect: it advances the
   * epoch number by one, records the epoch's sentence count and zeroes the per-epoch counters,
   * keeping the best dev score.
   */
  function OnNewEpoch<S>(t: Tracker<S>, regimen: RegimenId, numSents: int): (r: Tracker<S>)
    ensures regimen != t.regimen ==> r == t
    ensures regimen == t.regimen ==>
      && r.epochNum == t.epochNum + 1
      && r.totalTrainSent == Some(numSents)
      && r.epochWords == 0 && r.sentNum == 0
      && r.sentNumNotReportTrain == 0 && r.sentNumNotReportDev == 0
      && r.lastReportWords == 0
      && r.bestDevScore == t.bestDevScore
      && r == t.(epochNum := r.epochNum, totalTrainSent := r.totalTrainSent, epochWords := 0,
                 sentNum := 0, sentNumNotReportTrain := 0, sentNumNotReportDev := 0,
                 lastReportWords := 0)
    ensures Valid(t) && numSents >= 0 ==> Valid(r)
  {
    if regimen == t.regimen then
      t.(totalTrainSent := Some(numSents), epochWords := 0, epochNum := t.epochNum + 1,
         sentNum := 0, sentNumNotReportTrain := 0, sentNumNotReportDev := 0, lastReportWords := 0)
    else
      t
  }

  /**
   * One training batch: every sentence counter grows by the number of source sentences and the
   * epoch's words by the batch's non-sentinel target tokens; nothing else changes.
   */
  function UpdateEpochLoss<S, X>(t: Tracker<S>, src: seq<X>, trg: seq<WordCount.Token>, es: int): (r: Tracker<S>)
    ensures r.sentNum == t.sentNum + |src|
    ensures r.sentNumNotReportTrain == t.sentNumNotReportTrain + |src|
    ensures r.sentNumNotReportDev == t.sentNumNotReportDev + |src|
    ensures r.epochWords == t.epochWords + |WordCount.Flatten(trg)| - multiset(WordCount.Flatten(trg))[es]
    ensures r == t.(sentNum := r.sentNum, sentNumNotReportTrain := r.sentNumNotReportTrain,
                    sentNumNotReportDev := r.sentNumNotReportDev, epochWords := r.epochWords)
    ensures Valid(t) ==> Valid(r)
  {
    WordCount.TrgWordsIsNonSentinelOfFlatten(trg, es);
    var n := WordCount.CountSentNum(src);
    t.(sentNum := t.sentNum + n,
       sentNumNotReportTrain := t.sentNumNotReportTrain + n,
       sentNumNotReportDev := t.sentNumNotReportDev + n,
       epochWords := t.epochWords + WordCount.TrgWords(trg, es))
  }

  /** Position in training as a fraction of epochs: completed epochs plus this epoch's share. */
  function FractionalEpoch<S>(t: Tracker<S>): real
    requires t.totalTrainSent.Some? && t.totalTrainSent.value != 0
  {
    (t.epochNum - 1) as real + t.sentNum as real / t.totalTrainSent.value as real
  }

  /** The training report is due: 1000 sentences since the last one, or the epoch is complete. */
  predicate TrainReportDue<S>(t: Tracker<S>)
    requires t.totalTrainSent.Some?
  {
    t.sentNumNotReportTrain >= EvalTrainEvery || t.sentNum == t.totalTrainSent.value
  }

  /**
   * The training report. When it is due, the counter since the last report keeps only its
   * remainder modulo 1000, the words at the last report catch up with the epoch's words, and the
   * call returns true; otherwise nothing changes and the call returns `None`. Before any epoch
   * start the number of training sentences does not exist yet; a due report in an epoch of zero
   * sentences divides by zero.
   */
  function ReportTrainProcess<S>(t: Tracker<S>): (r: Result<Reported<S, Option<bool>>, Python.Error>)
    ensures r.Failure? <==>
      t.totalTrainSent.None? || (TrainReportDue(t) && t.totalTrainSent.value == 0)
    ensures t.totalTrainSent.None? ==> r == Failure(Python.AttributeError)
    ensures t.totalTrainSent.Some? ==>
      (r == Failure(Python.ZeroDivisionError) <==> TrainReportDue(t) && t.totalTrainSent.value == 0)
    ensures r.Success? ==> t.totalTrainSent.Some? && (r.value.value == Some(true) <==> TrainReportDue(t))
    ensures r.Success? ==> r.value.value == Some(true) || r.value.value == None
    ensures r.Success? && r.value.value == None ==> r.value.tracker == t
    ensures r.Success? && r.value.value == Some(true) ==>
      var u := r.value.tracker;
      && 0 <= u.sentNumNotReportTrain < EvalTrainEvery
      && u.sentNumNotReportTrain % EvalTrainEvery == t.sentNumNotReportTrain % EvalTrainEvery
      && u.lastReportWords == t.epochWords
      && u.fractionalEpoch == FractionalEpoch(t)
      && u == t.(sentNumNotReportTrain := u.sentNumNotReportTrain, lastReportWords := u.lastReportWords,
                 fractionalEpoch := u.fractionalEpoch)
    ensures r.Success? && Valid(t) ==> Valid(r.value.tracker)
  {
    match t.totalTrainSent
    case None => Failure(Python.AttributeError)
    case Some(total) =>
      if !TrainReportDue(t) then Success(Reported(t, None))
      else if total == 0 then Failure(Python.ZeroDivisionError)
      else
        var u := t.(sentNumNotReportTrain := Python.Mod(t.sentNumNotReportTrain, EvalTrainEvery),
                    fractionalEpoch := FractionalEpoch(t),
                    lastReportWords := t.epochWords);
        Success(Reported(u, Some(true)))
  }

  /** Records the score and word count of the dev evaluation that just ran. */
  function SetDevScore<S>(t: Tracker<S>, devWords: int, devScore: S): (r: Tracker<S>)
    ensures r.devScore == Some(devScore) && r.devWords == devWords
    ensures r == t.(devScore := r.devScore, devWords := devWords)
    ensures Valid(t) ==> Valid(r)
  {
    t.(devScore := Some(devScore), devWords := devWords)
  }

  /**
   * Whether a dev evaluation is due. With a positive period: once that many sentences have
   * passed since the last dev report, or at the end of the epoch (the epoch size is only read
   * when the period has not been reached). Otherwise: once a whole epoch's worth of sentences has
   * passed since the last dev report. The tracker is not changed.
   */
  function ShouldReportDev<S>(t: Tracker<S>): (r: Result<bool, Python.Error>)
    ensures t.evalDevEvery > 0 && t.sentNumNotReportDev >= t.evalDevEvery ==> r == Success(true)
    ensures t.totalTrainSent.None? && !(t.evalDevEvery > 0 && t.sentNumNotReportDev >= t.evalDevEvery) ==>
      r == Failure(Python.AttributeError)
    ensures t.totalTrainSent.Some? && t.evalDevEvery > 0 ==>
      r == Success(t.sentNumNotReportDev >= t.evalDevEvery || t.sentNum == t.totalTrainSent.value)
    ensures t.totalTrainSent.Some? && t.evalDevEvery <= 0 ==>
      r == Success(t.sentNumNotReportDev >= t.totalTrainSent.value)
  {
    if t.evalDevEvery > 0 then
      if t.sentNumNotReportDev >= t.evalDevEvery then Success(true)
      else if t.totalTrainSent.None? then Failure(Python.AttributeError)
      else Success(t.sentNum == t.totalTrainSent.value)
    else if t.totalTrainSent.None? then Failure(Python.AttributeError)
    else Success(t.sentNumNotReportDev >= t.totalTrainSent.value)
  }

  /** The dev reporting period: the configured one, or the epoch's size when that is zero. */
  function DevPeriod<S>(t: Tracker<S>): int
    requires t.totalTrainSent.Some?
  {
    if t.evalDevEvery != 0 then t.evalDevEvery else t.totalTrainSent.value
  }

  /**
   * The dev report. The counter since the last dev report keeps its remainder modulo the dev
   * period (Python's floored `%`); the current dev score is compared with the best one through
   * `better`; the best score is replaced exactly when that comparison says so, and the result of
   * the comparison is returned as "save the model". It fails when no epoch has started or no dev
   * score has been recorded, and divides by zero in an epoch of zero sentences.
   */
  function ReportDevAndCheckModel<S>(t: Tracker<S>, better: (S, Option<S>) -> bool)
    : (r: Result<Reported<S, bool>, Python.Error>)
    ensures r.Failure? <==>
      t.totalTrainSent.None? || t.totalTrainSent.value == 0 || t.devScore.None?
    ensures t.totalTrainSent.None? ==> r == Failure(Python.AttributeError)
    ensures t.totalTrainSent.Some? && t.totalTrainSent.value == 0 ==> r == Failure(Python.ZeroDivisionError)
    ensures t.totalTrainSent.Some? && t.totalTrainSent.value != 0 && t.devScore.None? ==>
      r == Failure(Python.AttributeError)
    ensures r.Success? ==>
      var u := r.value.tracker;
      && r.value.value == better(t.devScore.value, t.bestDevScore)
      && (r.value.value ==> u.bestDevScore == t.devScore)
      && (!r.value.value ==> u.bestDevScore == t.bestDevScore)
      && u.sentNumNotReportDev % DevPeriod(t) == t.sentNumNotReportDev % DevPeriod(t)
      && (DevPeriod(t) > 0 ==> 0 <= u.sentNumNotReportDev < DevPeriod(t))
      && (DevPeriod(t) < 0 ==> DevPeriod(t) < u.sentNumNotReportDev <= 0)
      && u.fractionalEpoch == FractionalEpoch(t)
      && u == t.(sentNumNotReportDev := u.sentNumNotReportDev, fractionalEpoch := u.fractionalEpoch,
                 bestDevScore := u.bestDevScore)
    ensures r.Success? && Valid(t) ==> Valid(r.value.tracker)
  {
    match t.totalTrainSent
    case None => Failure(Python.AttributeError)
    case Some(total) =>
      if total == 0 then Failure(Python.ZeroDivisionError)
      else if t.devScore.None? then Failure(Python.AttributeError)
      else
        var period := DevPeriod(t);
        var dev := t.devScore.value;
        var save := better(dev, t.bestDevScore);
        var u := t.(sentNumNotReportDev := Python.Mod(t.sentNumNotReportDev, period),
                    fractionalEpoch := FractionalEpoch(t),
                    bestDevScore := if save then Some(dev) else t.bestDevScore);
        Success(Reported(u, save))
  }

  /** Zeroes the sentence counters; words, epoch number and best dev score are kept. */
  function ClearCounters<S>(t: Tracker<S>): (r: Tracker<S>)
    ensures r.sentNum == 0 && r.sentNumNotReportDev == 0 && r.sentNumNotReportTrain == 0
    ensures r.epochWords == t.epochWords && r.epochNum == t.epochNum && r.bestDevScore == t.bestDevScore
    ensures r == t.(sentNum := 0, sentNumNotReportDev := 0, sentNumNotReportTrain := 0)
    ensures Valid(t) ==> Valid(r)
  {
    t.(sentNum := 0, sentNumNotReportDev := 0, sentNumNotReportTrain := 0)
  }
}
