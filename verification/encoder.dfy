/**
 * The encoder control layer: a closed family of encoders over opaque transduction builders.
 *
 * The neural computation is not modelled: a builder is an opaque total function on sequences of
 * vectors `V` plus the dropout rate last given to it. What is modelled is the logic the encoder
 * layer itself owns: option fallback at construction, train/eval dropout switching, ordered
 * composition in the modular encoder, and the segmenting encoder's annealed loss weight.
 */
module Encoders {
  import opened Wrappers
  import Python
  import LambdaSchedule

  /** Which foreign builder an encoder was constructed with. */
  datatype BuilderKind =
    | BiRnnBuilder | VanillaLstmBuilder
    | ResidualBiRnnBuilder | ResidualRnnBuilder
    | PyramidalRnnBuilder | ConvBiRnnBuilder

  /**
   * An opaque recurrent/convolutional builder: its kind and size arguments, its computation, and
   * the dropout rate most recently set on it (`None` while the builder's own default applies).
   */
  datatype Builder<!V> = Builder(
    kind: BuilderKind, layers: int, inputDim: int, hiddenDim: int,
    run: seq<V> -> seq<V>,
    dropout: Option<real>)

  /** The opaque segmenting builder: its computation and the train flag most recently forwarded to it. */
  datatype SegmentBuilder<!V> = SegmentBuilder(run: seq<V> -> seq<V>, train: Option<bool>)

  /** The model-wide defaults consulted when an option is unset or falsy. */
  datatype Globals = Globals(defaultLayerDim: int, dropout: real)

  /** The encoder variants. The four builder-backed ones keep their configured dropout rate. */
  datatype Encoder<!V> =
    | Identity
    | Lstm(inputDim: int, layers: int, hiddenDim: int, dropout: real, builder: Builder<V>)
    | ResidualLstm(dropout: real, builder: Builder<V>)
    | PyramidalLstm(dropout: real, builder: Builder<V>)
    | ConvBiRnn(dropout: real, builder: Builder<V>)
    | Modular(modules: seq<Encoder<V>>)
    | Segmenting(lambda: LambdaSchedule.LambdaState, segBuilder: SegmentBuilder<V>)

  // ---------------------------------------------------------------------------------------------
  // Construction: `value or default` option resolution

  /**
   * The LSTM encoder. Input and hidden size fall back to the model-wide layer size and the
   * dropout rate to the model-wide dropout whenever the option is `None` or zero; the builder is
   * bidirectional or plain as requested. Omitted options take the constructor's defaults: no
   * sizes or dropout given, one layer, bidirectional.
   */
  function NewLstm<V>(g: Globals, run: seq<V> -> seq<V>, inputDim: Option<int> := None, layers: int := 1,
                      hiddenDim: Option<int> := None, dropout: Option<real> := None,
                      bidirectional: bool := true): (e: Encoder<V>)
    ensures e.Lstm? && e.layers == layers && e.builder.run == run
    ensures (inputDim == None || inputDim == Some(0)) ==> e.inputDim == g.defaultLayerDim
    ensures (inputDim.Some? && inputDim.value != 0) ==> e.inputDim == inputDim.value
    ensures (hiddenDim == None || hiddenDim == Some(0)) ==> e.hiddenDim == g.defaultLayerDim
    ensures (hiddenDim.Some? && hiddenDim.value != 0) ==> e.hiddenDim == hiddenDim.value
    ensures (dropout == None || dropout == Some(0.0)) ==> e.dropout == g.dropout
    ensures (dropout.Some? && dropout.value != 0.0) ==> e.dropout == dropout.value
    ensures e.builder.kind == (if bidirectional then BiRnnBuilder else VanillaLstmBuilder)
    ensures e.builder.inputDim == e.inputDim && e.builder.hiddenDim == e.hiddenDim
    ensures e.builder.layers == layers && e.builder.dropout == None
  {
    var input := Python.Or(inputDim, 0, g.defaultLayerDim);
    var hidden := Python.Or(hiddenDim, 0, g.defaultLayerDim);
    var kind := if bidirectional then BiRnnBuilder else VanillaLstmBuilder;
    Lstm(input, layers, hidden, Python.Or(dropout, 0.0, g.dropout),
         Builder(kind, layers, input, hidden, run, None))
  }

  /**
   * The residual LSTM encoder. The input size is taken as given, 512 when omitted, with no
   * fallback to the model-wide layer size; the hidden size and dropout rate fall back to the
   * model-wide defaults when `None` or zero.
   */
  function NewResidualLstm<V>(g: Globals, run: seq<V> -> seq<V>, inputDim: int := 512, layers: int := 1,
                              hiddenDim: Option<int> := None, dropout: Option<real> := None,
                              bidirectional: bool := true): (e: Encoder<V>)
    ensures e.ResidualLstm? && e.builder.run == run
    ensures e.builder.inputDim == inputDim && e.builder.layers == layers
    ensures (hiddenDim == None || hiddenDim == Some(0)) ==> e.builder.hiddenDim == g.defaultLayerDim
    ensures (hiddenDim.Some? && hiddenDim.value != 0) ==> e.builder.hiddenDim == hiddenDim.value
    ensures (dropout == None || dropout == Some(0.0)) ==> e.dropout == g.dropout
    ensures (dropout.Some? && dropout.value != 0.0) ==> e.dropout == dropout.value
    ensures e.builder.kind == (if bidirectional then ResidualBiRnnBuilder else ResidualRnnBuilder)
    ensures e.builder.dropout == None
  {
    var kind := if bidirectional then ResidualBiRnnBuilder else ResidualRnnBuilder;
    ResidualLstm(Python.Or(dropout, 0.0, g.dropout),
                 Builder(kind, layers, inputDim, Python.Or(hiddenDim, 0, g.defaultLayerDim), run, None))
  }

  /** The pyramidal LSTM encoder: same defaults and fallback rules as the residual one, always a pyramidal builder. */
  function NewPyramidalLstm<V>(g: Globals, run: seq<V> -> seq<V>, inputDim: int := 512, layers: int := 1,
                               hiddenDim: Option<int> := None, dropout: Option<real> := None): (e: Encoder<V>)
    ensures e.PyramidalLstm? && e.builder.run == run
    ensures e.builder.inputDim == inputDim && e.builder.layers == layers
    ensures (hiddenDim == None || hiddenDim == Some(0)) ==> e.builder.hiddenDim == g.defaultLayerDim
    ensures (hiddenDim.Some? && hiddenDim.value != 0) ==> e.builder.hiddenDim == hiddenDim.value
    ensures (dropout == None || dropout == Some(0.0)) ==> e.dropout == g.dropout
    ensures (dropout.Some? && dropout.value != 0.0) ==> e.dropout == dropout.value
    ensures e.builder.kind == PyramidalRnnBuilder && e.builder.dropout == None
  {
    PyramidalLstm(Python.Or(dropout, 0.0, g.dropout),
                  Builder(PyramidalRnnBuilder, layers, inputDim, Python.Or(hiddenDim, 0, g.defaultLayerDim), run, None))
  }

  /**
   * The convolutional bidirectional-RNN encoder as set up by `init_builder`: input size and
   * layer count are required, hidden size and dropout fall back as for the residual encoder.
   */
  function NewConvBiRnn<V>(g: Globals, run: seq<V> -> seq<V>, inputDim: int, layers: int,
                           hiddenDim: Option<int> := None, dropout: Option<real> := None): (e: Encoder<V>)
    ensures e.ConvBiRnn? && e.builder.run == run
    ensures e.builder.inputDim == inputDim && e.builder.layers == layers
    ensures (hiddenDim == None || hiddenDim == Some(0)) ==> e.builder.hiddenDim == g.defaultLayerDim
    ensures (hiddenDim.Some? && hiddenDim.value != 0) ==> e.builder.hiddenDim == hiddenDim.value
    ensures (dropout == None || dropout == Some(0.0)) ==> e.dropout == g.dropout
    ensures (dropout.Some? && dropout.value != 0.0) ==> e.dropout == dropout.value
    ensures e.builder.kind == ConvBiRnnBuilder && e.builder.dropout == None
  {
    ConvBiRnn(Python.Or(dropout, 0.0, g.dropout),
              Builder(ConvBiRnnBuilder, layers, inputDim, Python.Or(hiddenDim, 0, g.defaultLayerDim), run, None))
  }

  /** The segmenting encoder: epoch counter zero and the configured start weight, unclamped. */
  function NewSegmenting<V>(config: LambdaSchedule.LambdaConfig, run: seq<V> -> seq<V>): (e: Encoder<V>)
    ensures e.Segmenting? && e.lambda.ctr == 0 && e.lambda.val == config.start
    ensures e.lambda.config == config && e.segBuilder.run == run && e.segBuilder.train == None
  {
    Segmenting(LambdaSchedule.Init(config), SegmentBuilder(run, None))
  }

  // ---------------------------------------------------------------------------------------------
  // Transduction

  /** Encodes a sequence: pass-through, the builder's computation, or the children in order. */
  function Transduce<V>(e: Encoder<V>, sent: seq<V>): (r: seq<V>)
    ensures e.Identity? ==> r == sent
    ensures e.Lstm? || e.ResidualLstm? || e.PyramidalLstm? || e.ConvBiRnn? ==> r == e.builder.run(sent)
    ensures e.Segmenting? ==> r == e.segBuilder.run(sent)
    ensures e.Modular? && |e.modules| == 1 ==> r == Transduce(e.modules[0], sent)
    ensures e.Modular? && (forall i :: 0 <= i < |e.modules| ==> e.modules[i].Identity?) ==> r == sent
    decreases e
  {
    match e
    case Identity => sent
    case Lstm(_, _, _, _, b) => b.run(sent)
    case ResidualLstm(_, b) => b.run(sent)
    case PyramidalLstm(_, b) => b.run(sent)
    case ConvBiRnn(_, b) => b.run(sent)
    case Modular(ms) => TransduceAll(ms, sent)
    case Segmenting(_, sb) => sb.run(sent)
  }

  /** The modular encoder's loop: feed `sent` through each module, each output becoming the next input. */
  function TransduceAll<V>(ms: seq<Encoder<V>>, sent: seq<V>): (r: seq<V>)
    ensures (forall i :: 0 <= i < |ms| ==> ms[i].Identity?) ==> r == sent
    ensures |ms| == 1 ==> r == Transduce(ms[0], sent)
    decreases ms
  {
    if ms == [] then sent else TransduceAll(ms[1..], Transduce(ms[0], sent))
  }

  // ---------------------------------------------------------------------------------------------
  // Train / eval switching

  /**
   * Switches training mode: a builder-backed encoder gives its builder the configured dropout
   * when training and 0.0 otherwise, the segmenting encoder forwards the flag to its builder,
   * the modular encoder applies the same flag to every child, and the identity encoder ignores it.
   */
  function SetTrain<V>(e: Encoder<V>, val: bool): (r: Encoder<V>)
    ensures Configuration(r) == Configuration(e)
    decreases e
  {
    match e
    case Identity => e
    case Modular(ms) =>
      var children := seq(|ms|, i requires 0 <= i < |ms| => SetTrain(ms[i], val));
      assert Configuration(Modular(children)).modules == Configuration(e).modules;
      Modular(children)
    case Segmenting(l, sb) => Segmenting(l, sb.(train := Some(val)))
    case Lstm(i, n, h, d, b) => Lstm(i, n, h, d, b.(dropout := Some(ModeDropout(d, val))))
    case ResidualLstm(d, b) => ResidualLstm(d, b.(dropout := Some(ModeDropout(d, val))))
    case PyramidalLstm(d, b) => PyramidalLstm(d, b.(dropout := Some(ModeDropout(d, val))))
    case ConvBiRnn(d, b) => ConvBiRnn(d, b.(dropout := Some(ModeDropout(d, val))))
  }

  /** The dropout rate a builder gets: the configured rate when training, 0.0 otherwise. */
  function ModeDropout(configured: real, val: bool): real
  {
    if val then configured else 0.0
  }

  /**
   * Every builder anywhere inside `e` runs with the dropout that the mode `val` calls for (the
   * configured rate when training, exactly 0.0 otherwise), and every segmenting builder has been
   * told `val`.
   */
  ghost predicate DropoutFollows<V>(e: Encoder<V>, val: bool)
    decreases e
  {
    match e
    case Identity => true
    case Modular(ms) => forall i :: 0 <= i < |ms| ==> DropoutFollows(ms[i], val)
    case Segmenting(_, sb) => sb.train == Some(val)
    case Lstm(_, _, _, d, b) => b.dropout == Some(if val then d else 0.0)
    case ResidualLstm(d, b) => b.dropout == Some(if val then d else 0.0)
    case PyramidalLstm(d, b) => b.dropout == Some(if val then d else 0.0)
    case ConvBiRnn(d, b) => b.dropout == Some(if val then d else 0.0)
  }

  /** `e` with the state that `SetTrain` writes forgotten: what construction fixed and nothing else. */
  function Configuration<V>(e: Encoder<V>): Encoder<V>
    decreases e
  {
    match e
    case Identity => e
    case Modular(ms) => Modular(seq(|ms|, i requires 0 <= i < |ms| => Configuration(ms[i])))
    case Segmenting(l, sb) => Segmenting(l, sb.(train := None))
    case Lstm(i, n, h, d, b) => Lstm(i, n, h, d, b.(dropout := None))
    case ResidualLstm(d, b) => ResidualLstm(d, b.(dropout := None))
    case PyramidalLstm(d, b) => PyramidalLstm(d, b.(dropout := None))
    case ConvBiRnn(d, b) => ConvBiRnn(d, b.(dropout := None))
  }

  // ---------------------------------------------------------------------------------------------
  // Reinforcement loss, epochs, shared parameters

  /**
   * The extra loss term: only the segmenting encoder has one, computed by its builder from the
   * reward and the current weight; every other encoder, the modular one included, has none.
   */
  function CalcReinforceLoss<V, R, L>(e: Encoder<V>, reward: R, reinforce: (R, real) -> L): (r: Option<L>)
    ensures r.Some? <==> e.Segmenting?
    ensures e.Segmenting? ==> r == Some(reinforce(reward, e.lambda.val))
  {
    match e
    case Segmenting(l, _) => Some(reinforce(reward, l.val))
    case _ => None
  }

  /**
   * The segmenting encoder's epoch hook: advances its schedule and changes nothing else. No
   * other encoder has this hook, so calling it on one fails.
   */
  function NewEpoch<V>(e: Encoder<V>): (r: Result<Encoder<V>, Python.Error>)
    ensures !e.Segmenting? <==> r == Failure(Python.AttributeError)
    ensures e.Segmenting? ==>
      && r.Success? && r.value.Segmenting?
      && r.value.lambda.ctr == e.lambda.ctr + 1
      && r.value.lambda.config == e.lambda.config
      && r.value.lambda.val == LambdaSchedule.Schedule(e.lambda.ctr + 1, e.lambda.config)
      && r.value.segBuilder == e.segBuilder
  {
    match e
    case Segmenting(l, sb) => Success(Segmenting(LambdaSchedule.NewEpoch(l), sb))
    case _ => Failure(Python.AttributeError)
  }

  /**
   * The modular encoder's declared shared parameter groups: its own input size must equal its
   * first module's. The declaration does not depend on the modules.
   */
  function ModularSharedParams<V>(e: Encoder<V>): (groups: seq<set<string>>)
    requires e.Modular?
    ensures |groups| == 1 && groups[0] == {"input_dim", "modules.0.input_dim"}
  {
    [{"input_dim", "modules.0.input_dim"}]
  }

  /** A configuration respects shared parameter groups when names of one group that it sets agree. */
  ghost predicate RespectsShared(config: map<string, int>, groups: seq<set<string>>)
  {
    forall i, a, b :: 0 <= i < |groups| && a in groups[i] && b in groups[i] && a in config && b in config
      ==> config[a] == config[b]
  }
}
