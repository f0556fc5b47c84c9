/** Properties of the tracker that relate several of its operations. */
module TrackerProperties {
  import opened Wrappers
  import Python
  import WordCount
  import opened LossTracker

  /** Number of source sentences in a sequence of batches. */
  function Sents<X>(batches: seq<Batch<X>>): nat
  {
    if batches == [] then 0 else Sents(batches[..|batches| - 1]) + |batches[|batches| - 1].src|
  }

  /** Number of target words in a sequence of batches. */
  function Words<X>(batches: seq<Batch<X>>, es: int): nat
  {
    if batches == [] then 0
    else Words(batches[..|batches| - 1], es) + WordCount.TrgWords(batches[|batches| - 1].trg, es)
  }

  /** The tracker after one `UpdateEpochLoss` per batch, in order. */
  function Feed<S, X>(t: Tracker<S>, batches: seq<Batch<X>>, es: int): Tracker<S>
  {
    if batches == [] then t
    else
      var last := batches[|batches| - 1];
      UpdateEpochLoss(Feed(t, batches[..|batches| - 1], es), last.src, last.trg, es)
  }

  /**
   * Feeding batches adds their sentences to all three sentence counters and their words to the
   * epoch's words, and changes nothing else.
   */
  lemma {:induction false} FeedAccumulates<S, X>(t: Tracker<S>, batches: seq<Batch<X>>, es: int)
    ensures Feed(t, batches, es) ==
      t.(sentNum := t.sentNum + Sents(batches),
         sentNumNotReportTrain := t.sentNumNotReportTrain + Sents(batches),
         sentNumNotReportDev := t.sentNumNotReportDev + Sents(batches),
         epochWords := t.epochWords + Words(batches, es))
  {
    if batches != [] {
      var last := batches[|batches| - 1];
      FeedAccumulates(t, batches[..|batches| - 1], es);
      WordCount.TrgWordsIsNonSentinelOfFlatten(last.trg, es);
    }
  }

  /** While the epoch's sentences have not been exceeded, the fractional epoch lies within the current epoch. */
  lemma FractionalEpochInRange<S>(t: Tracker<S>)
    requires t.totalTrainSent.Some? && t.totalTrainSent.value > 0
    requires 0 <= t.sentNum <= t.totalTrainSent.value
    ensures (t.epochNum - 1) as real <= FractionalEpoch(t) <= t.epochNum as real
  {
    var total := t.totalTrainSent.value as real;
    var frac := t.sentNum as real / total;
    assert frac * total == t.sentNum as real;
    assert 0.0 <= frac <= 1.0;
  }

  /** A training report fired inside an epoch records a fractional epoch within that epoch. */
  lemma TrainReportWithinEpoch<S>(t: Tracker<S>)
    requires t.totalTrainSent.Some? && t.totalTrainSent.value > 0
    requires 0 <= t.sentNum <= t.totalTrainSent.value
    requires ReportTrainProcess(t).Success? && ReportTrainProcess(t).value.value == Some(true)
    ensures var u := ReportTrainProcess(t).value.tracker;
      (t.epochNum - 1) as real <= u.fractionalEpoch <= t.epochNum as real
  {
    FractionalEpochInRange(t);
  }

  /**
   * Once-per-epoch dev cadence: with a dev period of zero, after the epoch starts with `n`
   * sentences and some batches are fed, a dev report is due exactly when at least `n` sentences
   * have been fed.
   */
  lemma EpochEndDevCadence<S, X>(t: Tracker<S>, n: int, batches: seq<Batch<X>>, es: int)
    requires t.evalDevEvery == 0
    ensures ShouldReportDev(Feed(OnNewEpoch(t, t.regimen, n), batches, es)) == Success(Sents(batches) >= n)
  {
    FeedAccumulates(OnNewEpoch(t, t.regimen, n), batches, es);
  }

  /**
   * Training cadence within a fresh epoch of `n` sentences: after feeding some batches, the
   * training report is due exactly when 1000 sentences have been fed or the epoch is complete.
   */
  lemma FreshEpochTrainCadence<S, X>(t: Tracker<S>, n: int, batches: seq<Batch<X>>, es: int)
    ensures var u := Feed(OnNewEpoch(t, t.regimen, n), batches, es);
      u.totalTrainSent == Some(n) &&
      (TrainReportDue(u) <==> Sents(batches) >= EvalTrainEvery || Sents(batches) == n)
  {
    FeedAccumulates(OnNewEpoch(t, t.regimen, n), batches, es);
  }

  /**
   * With a comparison under which no score beats itself, reporting the same dev score twice
   * saves the model at most once: the second report answers false and the best score stays put.
   */
  lemma SameDevScoreSavedOnce<S>(t: Tracker<S>, better: (S, Option<S>) -> bool)
    requires forall s: S :: !better(s, Some(s))
    requires ReportDevAndCheckModel(t, better).Success?
    ensures var first := ReportDevAndCheckModel(t, better).value;
      var second := ReportDevAndCheckModel(first.tracker, better);
      && second.Success?
      && !second.value.value
      && second.value.tracker.bestDevScore == first.tracker.bestDevScore
  {
    var first := ReportDevAndCheckModel(t, better).value;
    var dev := t.devScore.value;
    assert first.tracker.devScore == Some(dev);
    if first.value {
      assert first.tracker.bestDevScore == Some(dev);
      assert !better(dev, Some(dev));
    } else {
      assert first.tracker.bestDevScore == t.bestDevScore;
    }
  }
}
