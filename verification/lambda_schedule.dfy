/**
 * The segmenting encoder's annealed weight of the reinforcement loss: an epoch counter and a
 * weight that starts at a configured value and, from the first epoch on, follows
 * max(min(0.001 * (2^ctr - 10), max), min). Arithmetic is exact (`real`), not floating point.
 */
module LambdaSchedule {

  /** The schedule's configuration: the initial weight and the two clamping bounds. */
  datatype LambdaConfig = LambdaConfig(start: real, min: real, max: real)

  /** Epoch counter and current weight. */
  datatype LambdaState = LambdaState(ctr: nat, val: real, config: LambdaConfig)

  function Pow2(n: nat): nat
  {
    if n == 0 then 1 else 2 * Pow2(n - 1)
  }

  function Min(a: real, b: real): real { if a <= b then a else b }

  function Max(a: real, b: real): real { if a >= b then a else b }

  /** The unclamped weight for epoch counter `ctr`. */
  function Raw(ctr: nat): real
  {
    0.001 * (Pow2(ctr) - 10) as real
  }

  /** The weight after the epoch counter has reached `ctr` (ctr >= 1): capped by max first, then raised to min. */
  function Schedule(ctr: nat, config: LambdaConfig): real
  {
    Max(Min(Raw(ctr), config.max), config.min)
  }

  /** Construction: counter zero and the configured start weight, not clamped. */
  function Init(config: LambdaConfig): (s: LambdaState)
    ensures s.ctr == 0 && s.val == config.start && s.config == config
  {
    LambdaState(0, config.start, config)
  }

  /**
   * One epoch: the counter advances by one and the weight is recomputed from the counter alone,
   * landing in [min, max] whenever min <= max (and on min when the bounds are crossed).
   */
  function NewEpoch(s: LambdaState): (r: LambdaState)
    ensures r.ctr == s.ctr + 1 && r.config == s.config
    ensures s.config.min <= s.config.max ==> s.config.min <= r.val <= s.config.max
    ensures s.config.min > s.config.max ==> r.val == s.config.min
    ensures r.val == Schedule(r.ctr, s.config)
  {
    var ctr := s.ctr + 1;
    var v := Raw(ctr);
    var v := Min(v, s.config.max);
    var v := Max(v, s.config.min);
    s.(ctr := ctr, val := v)
  }

  /** The state after `n` calls of `NewEpoch`. */
  function Epochs(s: LambdaState, n: nat): LambdaState
  {
    if n == 0 then s else NewEpoch(Epochs(s, n - 1))
  }

  /**
   * After `n` epochs from construction the counter is `n`; the weight is still the unclamped
   * start value when `n` is 0 and otherwise a function of `n` and the bounds alone.
   */
  lemma {:induction false} EpochsFromInit(config: LambdaConfig, n: nat)
    ensures Epochs(Init(config), n).ctr == n
    ensures Epochs(Init(config), n).config == config
    ensures n == 0 ==> Epochs(Init(config), n).val == config.start
    ensures n >= 1 ==> Epochs(Init(config), n).val == Schedule(n, config)
  {
    if n > 0 {
      EpochsFromInit(config, n - 1);
    }
  }

  /** With ordered bounds, every scheduled weight lies within them. */
  lemma ScheduleInRange(ctr: nat, config: LambdaConfig)
    requires config.min <= config.max
    ensures config.min <= Schedule(ctr, config) <= config.max
  {
  }

  lemma {:induction false} Pow2Monotone(n: nat, m: nat)
    requires n <= m
    ensures Pow2(n) <= Pow2(m)
    decreases m - n
  {
    if n < m {
      Pow2Monotone(n, m - 1);
    }
  }

  /** The weight never decreases from one epoch to a later one. */
  lemma ScheduleMonotone(n: nat, m: nat, config: LambdaConfig)
    requires n <= m
    ensures Schedule(n, config) <= Schedule(m, config)
  {
    Pow2Monotone(n, m);
  }

  /** During the first three epochs the raw weight is negative, so a non-negative lower bound is in force. */
  lemma EarlyEpochsAtMin(ctr: nat, config: LambdaConfig)
    requires 1 <= ctr <= 3 && 0.0 <= config.min <= config.max
    ensures Schedule(ctr, config) == config.min
  {
    Pow2Monotone(ctr, 3);
    assert Pow2(3) == 8;
  }
}
