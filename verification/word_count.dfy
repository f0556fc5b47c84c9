/** Counting target words and sentences of a minibatch (the minibatch tracker's two counting hooks). */
module WordCount {

  /** One element of a target batch: a bare token id, or one sentence given as a list of token ids. */
  datatype Token = Word(id: int) | Sentence(ids: seq<int>)

  /** Number of ids in `ids` that are not the end-of-sequence sentinel `es`. */
  function NonSentinel(ids: seq<int>, es: int): nat
  {
    if ids == [] then 0
    else NonSentinel(ids[..|ids| - 1], es) + (if ids[|ids| - 1] != es then 1 else 0)
  }

  /** Contribution of one batch element: a bare id counts once unless it is `es`. */
  function TokenWords(x: Token, es: int): nat
  {
    match x
    case Word(id) => if id != es then 1 else 0
    case Sentence(ids) => NonSentinel(ids, es)
  }

  /** The number of target words of a batch: the non-sentinel ids over all its elements. */
  function TrgWords(trg: seq<Token>, es: int): nat
  {
    if trg == [] then 0 else TrgWords(trg[..|trg| - 1], es) + TokenWords(trg[|trg| - 1], es)
  }

  /** All token ids of a batch in order, whether bare or inside a sentence. */
  function Flatten(trg: seq<Token>): seq<int>
  {
    if trg == [] then []
    else Flatten(trg[..|trg| - 1]) + (match trg[|trg| - 1] case Word(id) => [id] case Sentence(ids) => ids)
  }

  /** Counting a list of ids is its length minus the occurrences of the sentinel. */
  lemma {:induction false} NonSentinelIsLengthMinusSentinels(ids: seq<int>, es: int)
    ensures NonSentinel(ids, es) == |ids| - multiset(ids)[es]
  {
    if ids != [] {
      var init := ids[..|ids| - 1];
      NonSentinelIsLengthMinusSentinels(init, es);
      assert ids == init + [ids[|ids| - 1]];
      assert multiset(ids) == multiset(init) + multiset{ids[|ids| - 1]};
    }
  }

  /**
   * The target word count is exactly the number of flattened ids that are not the sentinel:
   * the batch's total number of ids minus the sentinel's multiplicity.
   */
  lemma {:induction false} TrgWordsIsNonSentinelOfFlatten(trg: seq<Token>, es: int)
    ensures TrgWords(trg, es) == |Flatten(trg)| - multiset(Flatten(trg))[es]
  {
    if trg != [] {
      var init := trg[..|trg| - 1];
      var last := trg[|trg| - 1];
      TrgWordsIsNonSentinelOfFlatten(init, es);
      var tail := match last case Word(id) => [id] case Sentence(ids) => ids;
      NonSentinelIsLengthMinusSentinels(tail, es);
      assert TokenWords(last, es) == NonSentinel(tail, es) by {
        if last.Word? {
          assert tail == [] + [last.id];
        }
      }
      assert Flatten(trg) == Flatten(init) + tail;
      assert multiset(Flatten(trg)) == multiset(Flatten(init)) + multiset(tail);
    }
  }

  /** The count never exceeds the number of ids in the batch. */
  lemma TrgWordsBounded(trg: seq<Token>, es: int)
    ensures 0 <= TrgWords(trg, es) <= |Flatten(trg)|
  {
    TrgWordsIsNonSentinelOfFlatten(trg, es);
  }

  /** A batch whose every id is the sentinel has no target words. */
  lemma AllSentinelCountsNothing(trg: seq<Token>, es: int)
    requires forall i :: 0 <= i < |Flatten(trg)| ==> Flatten(trg)[i] == es
    ensures TrgWords(trg, es) == 0
  {
    TrgWordsIsNonSentinelOfFlatten(trg, es);
    var f := Flatten(trg);
    assert f == seq(|f|, _ => es);
    SentinelMultiplicity(|f|, es);
  }

  lemma {:induction false} SentinelMultiplicity(n: nat, es: int)
    ensures multiset(seq(n, _ => es))[es] == n
  {
    if n > 0 {
      SentinelMultiplicity(n - 1, es);
      assert seq(n, _ => es) == seq(n - 1, _ => es) + [es];
    }
  }

  /** A batch without the sentinel counts every id. */
  lemma NoSentinelCountsAll(trg: seq<Token>, es: int)
    requires es !in Flatten(trg)
    ensures TrgWords(trg, es) == |Flatten(trg)|
  {
    TrgWordsIsNonSentinelOfFlatten(trg, es);
  }

  /**
   * The minibatch tracker's word counter: walks the batch left to right, adding 1 for a bare id
   * that is not `es` and, for a sentence, the number of its ids that are not `es`.
   */
  method CountTrgWords(trg: seq<Token>, es: int) returns (trgCnt: nat)
    ensures trgCnt == TrgWords(trg, es)
    ensures trgCnt == |Flatten(trg)| - multiset(Flatten(trg))[es]
  {
    trgCnt := 0;
    var i := 0;
    while i < |trg|
      invariant 0 <= i <= |trg|
      invariant trgCnt == TrgWords(trg[..i], es)
    {
      var x := trg[i];
      match x {
        case Word(id) =>
          trgCnt := trgCnt + (if id != es then 1 else 0);
        case Sentence(ids) =>
          var s := 0;
          var j := 0;
          while j < |ids|
            invariant 0 <= j <= |ids|
            invariant s == NonSentinel(ids[..j], es)
          {
            assert ids[..j + 1][..j] == ids[..j];
            s := s + (if ids[j] != es then 1 else 0);
            j := j + 1;
          }
          assert ids[..j] == ids;
          trgCnt := trgCnt + s;
      }
      assert trg[..i + 1][..i] == trg[..i];
      i := i + 1;
    }
    assert trg[..i] == trg;
    TrgWordsIsNonSentinelOfFlatten(trg, es);
  }

  /** The minibatch tracker's sentence counter: one per element of the source batch. */
  function CountSentNum<X>(obj: seq<X>): (n: nat)
    ensures n == |obj|
  {
    |obj|
  }
}
