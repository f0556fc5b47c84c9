/** Properties of the encoder control layer that relate several operations or hold recursively. */
module EncoderProperties {
  import opened Wrappers
  import Python
  import LambdaSchedule
  import opened Encoders

  // ---------------------------------------------------------------------------------------------
  // Train / eval switching

  /**
   * After `SetTrain(e, val)` every builder inside `e`, at any depth of modular nesting, has the
   * configured dropout when `val` holds and exactly 0.0 when it does not.
   */
  lemma {:induction false} SetTrainDropout<V>(e: Encoder<V>, val: bool)
    ensures DropoutFollows(SetTrain(e, val), val)
    decreases e
  {
    match e
    case Modular(ms) =>
      var r := SetTrain(e, val);
      forall i | 0 <= i < |ms|
        ensures DropoutFollows(r.modules[i], val)
      {
        SetTrainDropout(ms[i], val);
      }
    case _ =>
  }

  /** Only the most recent mode switch matters: switching twice equals switching once to the later mode. */
  lemma {:induction false} SetTrainLastWins<V>(e: Encoder<V>, a: bool, b: bool)
    ensures SetTrain(SetTrain(e, a), b) == SetTrain(e, b)
    decreases e
  {
    match e
    case Modular(ms) =>
      var lhs := SetTrain(SetTrain(e, a), b).modules;
      var rhs := SetTrain(e, b).modules;
      forall i | 0 <= i < |ms|
        ensures lhs[i] == rhs[i]
      {
        SetTrainLastWins(ms[i], a, b);
      }
      assert lhs == rhs;
    case _ =>
  }

  /** The identity encoder returns its input unchanged and ignores mode switches. */
  lemma IdentityPassThrough<V>(sent: seq<V>, val: bool)
    ensures Transduce(Identity, sent) == sent
    ensures SetTrain<V>(Identity, val) == Identity
  {
  }

  // ---------------------------------------------------------------------------------------------
  // Construction defaults

  /**
   * With every option omitted, the LSTM encoder takes its input size from the model-wide layer
   * size, while the residual and pyramidal encoders use their fixed default of 512.
   */
  lemma OmittedInputSizes<V>(g: Globals, run: seq<V> -> seq<V>)
    ensures NewLstm(g, run).inputDim == g.defaultLayerDim
    ensures NewLstm(g, run).layers == 1 && NewLstm(g, run).builder.kind == BiRnnBuilder
    ensures NewResidualLstm(g, run).builder.inputDim == 512
    ensures NewResidualLstm(g, run).builder.kind == ResidualBiRnnBuilder
    ensures NewPyramidalLstm(g, run).builder.inputDim == 512
  {
  }

  // ---------------------------------------------------------------------------------------------
  // Ordered composition

  /** Reference meaning of a module list: `ms[n-1]( ... ms[0](sent))`, built from the last module inward. */
  function Nested<V>(ms: seq<Encoder<V>>, sent: seq<V>): seq<V>
  {
    if ms == [] then sent else Transduce(ms[|ms| - 1], Nested(ms[..|ms| - 1], sent))
  }

  lemma {:induction false} NestedFirst<V>(ms: seq<Encoder<V>>, sent: seq<V>)
    requires ms != []
    ensures Nested(ms, sent) == Nested(ms[1..], Transduce(ms[0], sent))
    decreases |ms|
  {
    if |ms| > 1 {
      var init := ms[..|ms| - 1];
      NestedFirst(init, sent);
      assert init[1..] == ms[1..][..|ms[1..]| - 1];
    }
  }

  /**
   * The modular encoder applies its modules left to right: its output is the last module applied
   * to ... the first module applied to the input; with no modules it is the input itself.
   */
  lemma {:induction false} ModularIsNested<V>(ms: seq<Encoder<V>>, sent: seq<V>)
    ensures Transduce(Modular(ms), sent) == Nested(ms, sent)
    decreases |ms|
  {
    if ms != [] {
      ModularIsNested(ms[1..], Transduce(ms[0], sent));
      NestedFirst(ms, sent);
    }
  }

  /** A modular encoder over `a + b` is the modular encoder over `b` run on the output of the one over `a`. */
  lemma {:induction false} ModularConcat<V>(a: seq<Encoder<V>>, b: seq<Encoder<V>>, sent: seq<V>)
    ensures Transduce(Modular(a + b), sent) == Transduce(Modular(b), Transduce(Modular(a), sent))
    decreases |a|
  {
    if a == [] {
      assert a + b == b;
    } else {
      assert (a + b)[1..] == a[1..] + b;
      ModularConcat(a[1..], b, Transduce(a[0], sent));
    }
  }

  /** An identity module anywhere in a modular encoder can be dropped without changing the output. */
  lemma IdentityNeutral<V>(a: seq<Encoder<V>>, b: seq<Encoder<V>>, sent: seq<V>)
    ensures Transduce(Modular(a + [Identity] + b), sent) == Transduce(Modular(a + b), sent)
  {
    ModularConcat(a + [Identity], b, sent);
    ModularConcat(a, [Identity], sent);
    ModularConcat(a, b, sent);
  }

  /** A modular encoder nested as the first module is the same as splicing its modules in. */
  lemma FlattenNestedModular<V>(a: seq<Encoder<V>>, b: seq<Encoder<V>>, sent: seq<V>)
    ensures Transduce(Modular([Modular(a)] + b), sent) == Transduce(Modular(a + b), sent)
  {
    ModularConcat([Modular(a)], b, sent);
    ModularConcat(a, b, sent);
  }

  // ---------------------------------------------------------------------------------------------
  // Segmenting encoder over epochs

  /** The encoder after `n` epoch hooks, failing as soon as one fails. */
  function EncoderEpochs<V>(e: Encoder<V>, n: nat): Result<Encoder<V>, Python.Error>
  {
    if n == 0 then Success(e)
    else match EncoderEpochs(e, n - 1)
      case Success(e') => NewEpoch(e')
      case Failure(err) => Failure(err)
  }

  /**
   * A freshly built segmenting encoder that has seen `n` epochs hands its builder the start weight
   * when `n` is 0 and the scheduled weight for `n` afterwards, and that weight lies within the
   * bounds whenever they are ordered and `n` is at least 1.
   */
  lemma {:induction false} ReinforceWeightAfterEpochs<V, R, L>(
    config: LambdaSchedule.LambdaConfig, run: seq<V> -> seq<V>, n: nat, reward: R, reinforce: (R, real) -> L)
    ensures EncoderEpochs(NewSegmenting(config, run), n).Success?
    ensures var e := EncoderEpochs(NewSegmenting(config, run), n).value;
      && e.Segmenting? && e.lambda.ctr == n && e.lambda.config == config
      && CalcReinforceLoss(e, reward, reinforce)
         == Some(reinforce(reward, if n == 0 then config.start else LambdaSchedule.Schedule(n, config)))
      && (n >= 1 && config.min <= config.max ==> config.min <= e.lambda.val <= config.max)
  {
    if n > 0 {
      ReinforceWeightAfterEpochs(config, run, n - 1, reward, reinforce);
    }
  }

  // ---------------------------------------------------------------------------------------------
  // Shared parameters

  /**
   * The modular encoder's declaration ties exactly its own input size to its first module's:
   * a configuration respects it iff those two entries agree whenever both are set.
   */
  lemma SharedParamsTieInputDims<V>(e: Encoder<V>, config: map<string, int>)
    requires e.Modular?
    ensures RespectsShared(config, ModularSharedParams(e)) <==>
      ("input_dim" in config && "modules.0.input_dim" in config ==> config["input_dim"] == config["modules.0.input_dim"])
  {
  }
}
