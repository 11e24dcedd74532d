/** The actor-critic orchestration: the flags and configuration of the trainer
    variants, one item of the value and of the policy input stream, the
    per-algorithm policy inputs, and the epoch that alternates the two
    subtrainers and shares their leading layers. */
module ActorCritic {
  import opened Outcomes
  import opened PySlices
  import opened Arrays
  import opened WeightSharing

  /** The trainer classes: the abstract base and its three algorithms
      (PPO and AWR extend A2C). */
  datatype Algorithm = ActorCriticBase | A2C | PPO | AWR
  {
    /** The class attribute `on_policy`: `None` in the base, `True` in A2C and,
        by inheritance, PPO, `False` in AWR. */
    function OnPolicy(): (flag: Option<bool>)
      ensures flag == None <==> this == ActorCriticBase
      ensures flag == Some(true) <==> this == A2C || this == PPO
      ensures flag == Some(false) <==> this == AWR
    {
      match this
      case ActorCriticBase => None
      case A2C => Some(true)
      case PPO => Some(true)
      case AWR => Some(false)
    }
  }

  /** Python truthiness of an optional flag. */
  predicate Truthy(flag: Option<bool>)
  {
    flag == Some(true)
  }

  /** The trainer's configuration as the core reads it. `maxSliceLength` comes
      from keyword arguments and may be absent; the policy batch size and step
      budget belong to the policy-trainer base class. */
  datatype Config = Config(
    valueBatchSize: int,
    valueTrainStepsPerEpoch: int,
    nSharedLayers: int,
    maxSliceLength: Option<int>,
    addedPolicySliceLength: int,
    policyBatchSize: int,
    policyTrainStepsPerEpoch: int)

  /** A batch of trajectory slices; every field has leading axes `(batch, length)`
      when the task produces it. */
  datatype Trajectory<O, A> = Trajectory(
    observations: Array<O>,
    actions: Array<A>,
    rewards: Array<real>,
    returnsToGo: Array<real>,   // the task's `returns` field (`returns` is a keyword here)
    logProbs: Array<real>,
    mask: Array<real>)

  /** The trajectory's fields share the leading shape `(batch, length)`. */
  predicate Consistent<O, A>(t: Trajectory<O, A>, batch: nat, length: nat)
  {
    && t.observations.batch == batch && t.observations.length == length
    && t.actions.batch == batch && t.actions.length == length
    && t.rewards.batch == batch && t.rewards.length == length
    && t.returnsToGo.batch == batch && t.returnsToGo.length == length
    && t.logProbs.batch == batch && t.logProbs.length == length
    && t.mask.batch == batch && t.mask.length == length
  }

  /** The arguments of a call to the task's `trajectory_batch_stream`. The value
      stream passes only the batch size and the slice length, leaving `epochs`
      and `include_final_state` at the task's defaults. */
  datatype BatchRequest =
    | ValueRequest(batchSize: int, maxSliceLength: Option<int>)
    | PolicyRequest(batchSize: int, epochs: Option<seq<int>>, sliceLength: int, includeFinalState: bool)

  /** `epochs = [-1] if self.on_policy else None` */
  function Epochs(alg: Algorithm): (epochs: Option<seq<int>>)
    ensures epochs == Some([-1]) <==> Truthy(alg.OnPolicy())
    ensures epochs != Some([-1]) ==> epochs == None
  {
    if Truthy(alg.OnPolicy()) then Some([-1]) else None
  }

  /** On-policy algorithms (A2C, PPO) sample only the latest epoch; AWR and the
      base class, whose flag is `False` or `None`, sample every epoch. */
  lemma EpochScope(alg: Algorithm)
    ensures Epochs(alg) == Some([-1]) <==> alg == A2C || alg == PPO
    ensures Epochs(alg) == None <==> alg == AWR || alg == ActorCriticBase
  {
  }

  /** One item of `value_batches_stream`: observations, returns and mask. */
  datatype ValueItem<O> = ValueItem(observations: Array<O>, targets: Array3<real>, mask: Array3<real>)

  function ValueBatchesRequest(cfg: Config): (r: BatchRequest)
    ensures r.ValueRequest? && r.batchSize == cfg.valueBatchSize && r.maxSliceLength == cfg.maxSliceLength
  {
    ValueRequest(cfg.valueBatchSize, cfg.maxSliceLength)
  }

  /** The item the value stream yields for one trajectory batch. */
  function ValueBatch<O, A>(t: Trajectory<O, A>): (r: ValueItem<O>)
    ensures r.observations == t.observations
    ensures r.targets.batch == t.returnsToGo.batch && r.targets.length == t.returnsToGo.length && r.targets.depth == 1
    ensures r.mask.batch == t.mask.batch && r.mask.length == t.mask.length && r.mask.depth == 1
    ensures forall i, j :: 0 <= i < t.returnsToGo.batch && 0 <= j < t.returnsToGo.length ==>
      r.targets.cells[i][j] == [t.returnsToGo.rows[i][j]]
    ensures forall i, j :: 0 <= i < t.mask.batch && 0 <= j < t.mask.length ==>
      r.mask.cells[i][j] == [t.mask.rows[i][j]]
  {
    ValueItem(t.observations, AddDepth(t.returnsToGo), AddDepth(t.mask))
  }

  /** Observations pass through; returns and mask gain a trailing axis of size 1
      and lose nothing: squeezing it off gives the trajectory's fields back. */
  lemma {:induction false} ValueBatchAddsDepth<O, A>(t: Trajectory<O, A>)
    ensures ValueBatch(t).observations == t.observations
    ensures var v := ValueBatch(t);
            && v.targets.batch == t.returnsToGo.batch && v.targets.length == t.returnsToGo.length
            && v.targets.depth == 1
            && v.mask.batch == t.mask.batch && v.mask.length == t.mask.length && v.mask.depth == 1
    ensures Squeeze(ValueBatch(t).targets) == t.returnsToGo
    ensures Squeeze(ValueBatch(t).mask) == t.mask
  {
    SqueezeAddDepth(t.returnsToGo);
    SqueezeAddDepth(t.mask);
  }

  /** The request the policy stream makes. Adding the policy slice length to an
      absent `max_slice_length` raises `TypeError` before anything is yielded. */
  function PolicyBatchesRequest(alg: Algorithm, cfg: Config): (r: Result<BatchRequest>)
    ensures r.Failure? <==> cfg.maxSliceLength.None?
    ensures r.Failure? ==> r.error == TypeError
    ensures r.Success? ==>
      && r.value.PolicyRequest?
      && r.value.batchSize == cfg.policyBatchSize
      && r.value.sliceLength == cfg.maxSliceLength.value + cfg.addedPolicySliceLength
      && (r.value.includeFinalState <==> r.value.sliceLength > 1)
      && (r.value.epochs == Some([-1]) <==> Truthy(alg.OnPolicy()))
      && (r.value.epochs != Some([-1]) ==> r.value.epochs == None)
  {
    match cfg.maxSliceLength
    case None => Failure(TypeError)
    case Some(m) =>
      var sliceLength := m + cfg.addedPolicySliceLength;
      Success(PolicyRequest(cfg.policyBatchSize, Epochs(alg), sliceLength, sliceLength > 1))
  }

  /** Policy slices are `added_policy_slice_length` timesteps longer than value
      slices. A missing `max_slice_length` is passed through to the task by the
      value stream, while the policy stream raises `TypeError` on it. */
  lemma PolicySlicesLonger(alg: Algorithm, cfg: Config)
    ensures ValueBatchesRequest(cfg).maxSliceLength == cfg.maxSliceLength
    ensures var p := PolicyBatchesRequest(alg, cfg);
            cfg.maxSliceLength.Some? ==>
              p.Success? && p.value.sliceLength == ValueBatchesRequest(cfg).maxSliceLength.value + cfg.addedPolicySliceLength
    ensures cfg.maxSliceLength.None? ==> PolicyBatchesRequest(alg, cfg) == Failure(TypeError)
  {
  }

  /** What `policy_inputs` returns: the base class returns the exception class
      `NotImplementedError` itself as its value; the algorithms return the tuple
      `(obs, act, advantages, old_logps)`. */
  datatype PolicyItem<O, A> =
    | NotImplementedErrorClass
    | Inputs(observations: Array<O>, actions: Array<A>, advantages: Array<real>, oldLogProbs: Array<real>)

  /** `computation_utils.calculate_advantage(rewards, returns, values, gamma, td)`,
      which is not part of this model. */
  type AdvantageFn = (Array<real>, Array<real>, Array<real>, real, int) -> Array<real>

  /** `A2CTrainer.policy_inputs` once the advantages are computed: cut `td`
      timesteps off observations, actions and old log-probs, then assert that
      every part has the advantages' leading shape. */
  function A2CPolicyInputs<O, A>(td: int, t: Trajectory<O, A>, advantages: Array<real>): (r: Result<PolicyItem<O, A>>)
    ensures r.Failure? ==> r.error == AssertionError
    ensures r.Success? <==>
      && SameLeadingShape(DropLastSteps(t.actions, td), advantages)
      && SameLeadingShape(DropLastSteps(t.observations, td), advantages)
      && SameLeadingShape(DropLastSteps(t.logProbs, td), advantages)
    ensures r.Success? ==>
      && r.value.Inputs?
      && r.value.observations == DropLastSteps(t.observations, td)
      && r.value.actions == DropLastSteps(t.actions, td)
      && r.value.advantages == advantages
      && r.value.oldLogProbs == DropLastSteps(t.logProbs, td)
  {
    var obs := DropLastSteps(t.observations, td);
    var act := DropLastSteps(t.actions, td);
    var oldLogps := DropLastSteps(t.logProbs, td);
    if !SameLeadingShape(act, advantages) then Failure(AssertionError)
    else if !SameLeadingShape(obs, advantages) then Failure(AssertionError)
    else if !SameLeadingShape(oldLogps, advantages) then Failure(AssertionError)
    else Success(Inputs(obs, act, advantages, oldLogps))
  }

  /** A consistent trajectory of shape `(batch, length)` with advantages of shape
      `(batch, length - td)` passes every assertion; each returned part then has
      `length - td` timesteps, the leading ones of the trajectory's rows, and
      nothing is cut when `td = 0`. */
  lemma {:induction false} A2CPolicyInputsTruncate<O, A>(td: nat, t: Trajectory<O, A>, advantages: Array<real>,
                                                         batch: nat, length: nat)
    requires Consistent(t, batch, length)
    requires td <= length
    requires advantages.batch == batch && advantages.length == length - td
    ensures var r := A2CPolicyInputs(td, t, advantages);
            && r.Success? && r.value.Inputs?
            && r.value.observations.batch == batch && r.value.observations.length == length - td
            && r.value.actions.length == length - td && r.value.oldLogProbs.length == length - td
            && (forall i :: 0 <= i < batch ==>
                  && r.value.observations.rows[i] == t.observations.rows[i][..length - td]
                  && r.value.actions.rows[i] == t.actions.rows[i][..length - td]
                  && r.value.oldLogProbs.rows[i] == t.logProbs.rows[i][..length - td])
            && (td == 0 ==> r.value.observations == t.observations && r.value.actions == t.actions
                            && r.value.oldLogProbs == t.logProbs)
  {
    var obs := DropLastSteps(t.observations, td);
    var act := DropLastSteps(t.actions, td);
    var oldLogps := DropLastSteps(t.logProbs, td);
    assert obs.length == length - td && act.length == length - td && oldLogps.length == length - td;
  }

  /** `policy_inputs` of each trainer class, given the squeezed value estimates. */
  function PolicyInputs<O, A>(alg: Algorithm, td: int, t: Trajectory<O, A>, values: Array<real>, gamma: real,
                              advantage: AdvantageFn): (r: Result<PolicyItem<O, A>>)
    ensures (r.Success? && r.value.NotImplementedErrorClass?) <==> alg == ActorCriticBase
    ensures alg == ActorCriticBase ==> r.Success?
    ensures alg != ActorCriticBase ==>
      r == A2CPolicyInputs(td, t, advantage(t.rewards, t.returnsToGo, values, gamma, td))
  {
    if alg == ActorCriticBase then Success(NotImplementedErrorClass)
    else A2CPolicyInputs(td, t, advantage(t.rewards, t.returnsToGo, values, gamma, td))
  }

  /** The value model's output has the shape `(policy_batch_size, slice_length, 1)`. */
  predicate ValueShapeOk(values: Array3<real>, batch: int, sliceLength: int)
  {
    values.batch == batch && values.length == sliceLength && values.depth == 1
  }

  /** One item of `policy_batches_stream`, given the trajectory batch the task
      yielded and the value model's output on its observations. */
  function PolicyBatch<O, A>(alg: Algorithm, cfg: Config, t: Trajectory<O, A>, values: Array3<real>, gamma: real,
                             advantage: AdvantageFn): (r: Result<PolicyItem<O, A>>)
    ensures cfg.maxSliceLength.None? ==> r == Failure(TypeError)
    ensures cfg.maxSliceLength.Some? ==>
      var sliceLength := cfg.maxSliceLength.value + cfg.addedPolicySliceLength;
      && (!ValueShapeOk(values, cfg.policyBatchSize, sliceLength) ==> r == Failure(AssertionError))
      && (ValueShapeOk(values, cfg.policyBatchSize, sliceLength) ==>
            r == PolicyInputs(alg, cfg.addedPolicySliceLength, t, Squeeze(values), gamma, advantage))
  {
    match PolicyBatchesRequest(alg, cfg)
    case Failure(e) => Failure(e)
    case Success(request) =>
      if !ValueShapeOk(values, cfg.policyBatchSize, request.sliceLength) then Failure(AssertionError)
      else PolicyInputs(alg, cfg.addedPolicySliceLength, t, Squeeze(values), gamma, advantage)
  }

  /** With well-shaped value estimates and advantages, an algorithm trainer
      yields the truncated tuple built from the squeezed values, and the base
      class yields the `NotImplementedError` class. */
  lemma {:induction false} PolicyBatchWellShaped<O, A>(alg: Algorithm, cfg: Config, t: Trajectory<O, A>,
                                                       values: Array3<real>, gamma: real, advantage: AdvantageFn)
    requires cfg.maxSliceLength.Some? && cfg.addedPolicySliceLength >= 0 && cfg.policyBatchSize >= 0
    requires cfg.maxSliceLength.value >= 0
    requires Consistent(t, cfg.policyBatchSize, cfg.maxSliceLength.value + cfg.addedPolicySliceLength)
    requires ValueShapeOk(values, cfg.policyBatchSize, cfg.maxSliceLength.value + cfg.addedPolicySliceLength)
    requires var adv := advantage(t.rewards, t.returnsToGo, Squeeze(values), gamma, cfg.addedPolicySliceLength);
             adv.batch == cfg.policyBatchSize && adv.length == cfg.maxSliceLength.value
    ensures var r := PolicyBatch(alg, cfg, t, values, gamma, advantage);
            && r.Success?
            && (alg == ActorCriticBase <==> r.value.NotImplementedErrorClass?)
            && (r.value.Inputs? ==>
                  && r.value.advantages == advantage(t.rewards, t.returnsToGo, Squeeze(values), gamma, cfg.addedPolicySliceLength)
                  && r.value.observations.length == cfg.maxSliceLength.value
                  && (forall i :: 0 <= i < cfg.policyBatchSize ==>
                        r.value.observations.rows[i] == t.observations.rows[i][..cfg.maxSliceLength.value]))
  {
    var td := cfg.addedPolicySliceLength;
    var length := cfg.maxSliceLength.value + td;
    if alg != ActorCriticBase {
      var adv := advantage(t.rewards, t.returnsToGo, Squeeze(values), gamma, td);
      A2CPolicyInputsTruncate(td, t, adv, cfg.policyBatchSize, length);
    }
  }

  /** The state of both subtrainers after `ActorCriticTrainer.train_epoch`, and
      whether it raised. */
  datatype EpochResult<W, S> = EpochResult(value: TrainerState<W, S>, policy: TrainerState<W, S>, outcome: Outcome)

  /** `train_epoch`: value epoch, copy value→policy of layers `[0, n)` when
      `n > 0`, policy epoch, copy policy→value when `n > 0`. A failing copy
      ends the epoch. */
  function TrainedEpoch<W, S>(cfg: Config, v: TrainerState<W, S>, p: TrainerState<W, S>,
                              trainValue: Engine<W, S>, trainPolicy: Engine<W, S>): (r: EpochResult<W, S>)
    ensures cfg.nSharedLayers <= 0 ==>
      r == EpochResult(trainValue(v, cfg.valueTrainStepsPerEpoch, 1), trainPolicy(p, cfg.policyTrainStepsPerEpoch, 1), Pass)
  {
    var n := cfg.nSharedLayers;
    var v1 := trainValue(v, cfg.valueTrainStepsPerEpoch, 1);
    if n <= 0 then EpochResult(v1, trainPolicy(p, cfg.policyTrainStepsPerEpoch, 1), Pass)
    else
      var (p0, copied) := CopyInto(0, n, v1, p, true);
      if copied.Fail? then EpochResult(v1, p0, copied)
      else
        var p1 := trainPolicy(p0, cfg.policyTrainStepsPerEpoch, 1);
        var (v2, copiedBack) := CopyInto(0, n, p1, v1, true);
        EpochResult(v2, p1, copiedBack)
  }

  /** After an epoch that shares `n > 0` layers and completes, the value and
      policy trainers agree on their first `n` weight blocks and slot-group-0
      entries (on as many as the policy has, if fewer), because the
      policy→value copy runs last; the policy keeps what its own epoch produced. */
  lemma {:induction false} EpochTiesSharedLayers<W, S>(cfg: Config, v: TrainerState<W, S>, p: TrainerState<W, S>,
                                                       trainValue: Engine<W, S>, trainPolicy: Engine<W, S>)
    requires cfg.nSharedLayers > 0
    requires TrainedEpoch(cfg, v, p, trainValue, trainPolicy).outcome == Pass
    ensures var r := TrainedEpoch(cfg, v, p, trainValue, trainPolicy);
            var n := cfg.nSharedLayers;
            && (forall k :: 0 <= k < n && k < |r.policy.weights| ==>
                  k < |r.value.weights| && r.value.weights[k] == r.policy.weights[k])
            && |r.value.slots| > 0 && |r.policy.slots| > 0
            && (forall k :: 0 <= k < n && k < |r.policy.slots[0]| ==>
                  k < |r.value.slots[0]| && r.value.slots[0][k] == r.policy.slots[0][k])
    ensures var v1 := trainValue(v, cfg.valueTrainStepsPerEpoch, 1);
            TrainedEpoch(cfg, v, p, trainValue, trainPolicy).policy
              == trainPolicy(CopyInto(0, cfg.nSharedLayers, v1, p, true).0, cfg.policyTrainStepsPerEpoch, 1)
  {
    var n := cfg.nSharedLayers;
    var v1 := trainValue(v, cfg.valueTrainStepsPerEpoch, 1);
    var (p0, copied) := CopyInto(0, n, v1, p, true);
    var p1 := trainPolicy(p0, cfg.policyTrainStepsPerEpoch, 1);
    CopyLeadingLayers(n, p1, v1);
  }

  /** The value trainer's layers from `n` on are the ones its own epoch produced:
      sharing never overwrites them. */
  lemma {:induction false} EpochKeepsUnsharedLayers<W, S>(cfg: Config, v: TrainerState<W, S>, p: TrainerState<W, S>,
                                                          trainValue: Engine<W, S>, trainPolicy: Engine<W, S>)
    requires cfg.nSharedLayers > 0
    requires TrainedEpoch(cfg, v, p, trainValue, trainPolicy).outcome == Pass
    requires |TrainedEpoch(cfg, v, p, trainValue, trainPolicy).policy.weights| >= cfg.nSharedLayers
    requires |trainValue(v, cfg.valueTrainStepsPerEpoch, 1).weights| >= cfg.nSharedLayers
    ensures var r := TrainedEpoch(cfg, v, p, trainValue, trainPolicy);
            var v1 := trainValue(v, cfg.valueTrainStepsPerEpoch, 1);
            |r.value.weights| == |v1.weights| && r.value.weights[cfg.nSharedLayers..] == v1.weights[cfg.nSharedLayers..]
  {
    var n := cfg.nSharedLayers;
    var v1 := trainValue(v, cfg.valueTrainStepsPerEpoch, 1);
    var (p0, copied) := CopyInto(0, n, v1, p, true);
    var p1 := trainPolicy(p0, cfg.policyTrainStepsPerEpoch, 1);
    CopyLeadingLayers(n, p1, v1);
  }

  /** An epoch can only raise when sharing is on and a trainer has no slot groups. */
  lemma {:induction false} EpochFailsOnlyWithoutSlots<W, S>(cfg: Config, v: TrainerState<W, S>, p: TrainerState<W, S>,
                                                            trainValue: Engine<W, S>, trainPolicy: Engine<W, S>)
    requires TrainedEpoch(cfg, v, p, trainValue, trainPolicy).outcome.Fail?
    ensures cfg.nSharedLayers > 0
    ensures TrainedEpoch(cfg, v, p, trainValue, trainPolicy).outcome.error == IndexError
    ensures var v1 := trainValue(v, cfg.valueTrainStepsPerEpoch, 1);
            |v1.slots| == 0 || |p.slots| == 0 ||
            |trainPolicy(CopyInto(0, cfg.nSharedLayers, v1, p, true).0, cfg.policyTrainStepsPerEpoch, 1).slots| == 0
  {
  }

  /** The actor-critic trainer: its class, its configuration and its two
      subtrainers, which are distinct objects. */
  class ActorCriticTrainer<W, S> {
    const algorithm: Algorithm
    const config: Config
    const valueTrainer: SubTrainer<W, S>
    const policyTrainer: SubTrainer<W, S>

    constructor (alg: Algorithm, cfg: Config, value: SubTrainer<W, S>, policy: SubTrainer<W, S>)
      requires value != policy
      ensures algorithm == alg && config == cfg && valueTrainer == value && policyTrainer == policy
      ensures valueTrainer != policyTrainer
    {
      algorithm := alg;
      config := cfg;
      valueTrainer := value;
      policyTrainer := policy;
    }

    /** `train_epoch`: trains the value model, shares its leading layers with
        the policy, trains the policy and shares them back, in that order. */
    method TrainEpoch(trainValue: Engine<W, S>, trainPolicy: Engine<W, S>) returns (outcome: Outcome)
      requires valueTrainer != policyTrainer
      modifies valueTrainer, policyTrainer
      ensures TrainedEpoch(config, old(valueTrainer.State()), old(policyTrainer.State()), trainValue, trainPolicy)
              == EpochResult(valueTrainer.State(), policyTrainer.State(), outcome)
    {
      var n := config.nSharedLayers;
      valueTrainer.TrainEpoch(config.valueTrainStepsPerEpoch, 1, trainValue);
      if n > 0 {
        outcome := CopyModelWeights(0, n, valueTrainer, policyTrainer, true);
        if outcome.Fail? {
          return;
        }
      }
      policyTrainer.TrainEpoch(config.policyTrainStepsPerEpoch, 1, trainPolicy);
      if n > 0 {
        outcome := CopyModelWeights(0, n, policyTrainer, valueTrainer, true);
        if outcome.Fail? {
          return;
        }
      }
      outcome := Pass;
    }
  }
}
