# Actor-critic training bookkeeping (trax `actor_critic.py`) in Dafny

This project models the orchestration layer of trax's actor-critic trainers
(`ActorCriticTrainer` and its `A2CTrainer`, `PPOTrainer` and `AWRTrainer`
variants): how the two subtrainers' weights and optimizer slots are partly
shared, how one training epoch alternates the value and the policy
subtrainer, and how trajectory batches become value and policy inputs. The
learning itself stays outside: each subtrainer's own `train_epoch`, the value
model's evaluation and `calculate_advantage` enter the model as function
parameters.

Modules:

- `Outcomes` (`outcomes.dfy`): Python `None`, the exceptions the core can
  raise (`TypeError`, `IndexError`, `AssertionError`) and result types.
- `PySlices` (`py_slices.dfy`): Python slicing `s[i:j]` and list slice
  assignment `a[i:j] = b` with step 1. This includes negative indices, clamping
  and an upper bound that falls before the lower one. Also the range copy
  `to[start:end] = from[start:end]`.
- `Arrays` (`arrays.dfy`): numpy arrays, reduced to their leading
  `(batch, length)` axes, plus an explicit depth axis where the core adds
  (`x[:, :, None]`) or squeezes one. Cell contents are kept, so truncation and
  round trips are stated on contents and not only on shapes.
- `WeightSharing` (`weight_sharing.dfy`): a `SubTrainer` class whose fields are
  the model weights (one block per layer) and the optimizer slot groups, and
  `_copy_model_weights` as a method that updates the destination in place.
  The method is specified by the pure function `CopyInto`.
- `ActorCritic` (`actor_critic.dfy`): the trainer classes and their `on_policy`
  flags, the configuration, one item of each input stream, `policy_inputs`,
  and the `ActorCriticTrainer` class. Its `TrainEpoch` method is specified by
  the pure function `TrainedEpoch`.

The model keeps the code's behaviour where it departs from its own docstrings and comments:

- the base `policy_inputs` returns the `NotImplementedError` class as a value
  (line 130), although its docstring (lines 118-128) promises a tuple of arrays;
- the optimizer-slot copy is not a range copy when `start > 0`, although the
  comment on line 179 says it is (see Findings).

`on_policy` is `None` in the base class (line 41); A2C sets it to `True`
(line 201), PPO inherits that, and AWR sets it to `False` (line 284).

## Model

| member | source | states |
|---|---|---|
| `PySlices.Bound` | trax/rl/actor_critic.py:170 | a slice bound counts from the end when negative and is clamped to `[0, n]`, as Python normalises the bounds of `s[i:j]`. |
| `PySlices.Slice` | trax/rl/actor_critic.py:170 | `s[i:j]` is the run of `s` that starts at the normalised lower bound. Its length is the distance between the normalised bounds, or 0 when they cross. |
| `PySlices.SliceAssign` | trax/rl/actor_critic.py:171 | after `a[i:j] = b`, the list keeps `a` before the lower bound, then holds `b`, then keeps `a` from the upper bound on. Its length changes by `|b|` minus the replaced run. |
| `PySlices.SliceInRange` | trax/rl/actor_critic.py:170 | with `0 <= i <= j <= |s|`, the Python slice is exactly `s[i..j]`. |
| `PySlices.SliceDropsLast` | trax/rl/actor_critic.py:213-217 | for `td > 0`, `s[:-td]` drops the last `td` elements, or all of them when `td >= |s|`. |
| `PySlices.CopyRange` | trax/rl/actor_critic.py:170-171 | `to[start:end] = from[start:end]` keeps `to` before the normalised start, then holds the source's slice, then ends with `to` from the upper bound on, and has exactly the length of these three pieces. This is the weight copy, and the slot copy the comment on line 179 intends. |
| `PySlices.CopyRangeReplacesOnlyRange` | trax/rl/actor_critic.py:168-172 | when both weight lists hold at least `end` blocks, the copy keeps the destination's length. Blocks in `[start, end)` come from the source; every other block is unchanged. |
| `PySlices.CopyPrefix` | trax/rl/actor_critic.py:168-172 | copying `[0, end)` makes the destination start with the source's first `min(end, |from|)` blocks and keep its own blocks from `min(end, |to|)` on, for any lengths. |
| `Arrays.AddDepth` | trax/rl/actor_critic.py:114-115 | `x[:, :, None]` keeps batch and length, has depth 1, and cell `(i, j)` is `[x[i][j]]`. |
| `Arrays.Squeeze` | trax/rl/actor_critic.py:150 | squeezing axis 2 of a depth-1 array keeps batch and length, and cell `(i, j)` is the single entry at `(i, j)`. |
| `Arrays.SqueezeAddDepth` | trax/rl/actor_critic.py:150 | squeezing undoes adding the trailing axis. |
| `Arrays.AddDepthSqueeze` | trax/rl/actor_critic.py:150 | adding the trailing axis undoes squeezing a depth-1 array. |
| `Arrays.DropLastSteps` | trax/rl/actor_critic.py:212-217 | `a[:, :-td] if td > 0 else a` returns `a` itself when `td <= 0`. Otherwise the batch is kept, the length drops by `td` (to 0 if `td` exceeds it), and each row is the leading part of the original row. |
| `WeightSharing.SubTrainer.TrainEpoch` | trax/rl/actor_critic.py:155 | a subtrainer's epoch replaces its own weights and slots with the engine's update of the old state, and nothing else changes. |
| `WeightSharing.SlotSpliceAsWritten` | trax/rl/actor_critic.py:177-180 | slot group 0 rebuilt as the code does, with the double slice. It keeps `to` before `start` and from `end` on. For `0 <= start < end` within both groups it has `|to| - min(start, end - start)` entries, so it loses entries whenever `start > 0`. |
| `WeightSharing.SlotSpliceAtZero` | trax/rl/actor_critic.py:177-180 | with `start = 0` and `end >= 0`, the double-sliced slot splice equals the intended range copy. |
| `WeightSharing.SlotSpliceDropsRange` | trax/rl/actor_critic.py:177-180 | with `0 < start < end <= 2*start` and both groups long enough, the splice as written deletes entries `[start, end)` of the destination group. It shrinks by `end - start` and differs from the range copy. |
| `WeightSharing.SlotSpliceLayerOne` | trax/rl/actor_critic.py:177-180 | copying layer 1 of `[10,11,12]` into `[20,21,22]` yields `[20,22]` as written, where the intended result is `[20,11,22]`. |
| `WeightSharing.CopyInto` | trax/rl/actor_critic.py:165-182 | the destination's weights get the range copy. An `IndexError` is raised exactly when slot copying is on and either slot tuple is empty; the new weights stay in that case. With copying off or failed, the slots are untouched. Otherwise slot group 0 is the as-written splice and groups 1 onwards are unchanged. |
| `WeightSharing.CopyLeadingLayers` | trax/rl/actor_critic.py:168-182 | the `[0, n)` copy the trainer uses succeeds when both trainers have slot groups. Weights and slot group 0 become the source's first `n` entries followed by the destination's own entries from `n` on. Slot groups 1 onwards are unchanged. |
| `WeightSharing.CopyModelWeights` | trax/rl/actor_critic.py:165-182 | the in-place copy leaves the destination in the state `CopyInto` gives from the old states, returns its outcome, and leaves a distinct source trainer unchanged. |
| `ActorCritic.Algorithm.OnPolicy` | trax/rl/actor_critic.py:41 | the class flag `on_policy` is `None` exactly for the base class (line 41). It is `True` exactly for A2C (line 201) and PPO, which inherits it, and `False` exactly for AWR (line 284). |
| `ActorCritic.Epochs` | trax/rl/actor_critic.py:134-137 | `epochs` is `[-1]` exactly when `on_policy` is truthy, and `None` otherwise. |
| `ActorCritic.EpochScope` | trax/rl/actor_critic.py:134-137 | `epochs` is `[-1]` exactly for A2C and PPO, whose `on_policy` is `True` (lines 201 and, by inheritance, 253). It is `None` for AWR (`False`, line 284) and for the base class (`None`, line 41). |
| `ActorCritic.ValueBatchesRequest` | trax/rl/actor_critic.py:109-110 | the value stream asks the task for `value_batch_size` batches of `max_slice_length` and leaves the other arguments at their defaults. |
| `ActorCritic.ValueBatch` | trax/rl/actor_critic.py:113-115 | the value stream's item passes observations unchanged. Returns and mask get shape `(batch, length, 1)`, and cell `(i, j)` holds the single original entry. |
| `ActorCritic.ValueBatchAddsDepth` | trax/rl/actor_critic.py:113-115 | observations pass through unchanged. Returns and mask gain a trailing axis of size 1, and squeezing it off gives them back. |
| `ActorCritic.PolicySlicesLonger` | trax/rl/actor_critic.py:64-68 | policy slices are `added_policy_slice_length` longer than the value slices (lines 138-139). A missing `max_slice_length` is passed through by the value stream (line 110) but raises `TypeError` in the policy stream (line 139). |
| `ActorCritic.PolicyBatchesRequest` | trax/rl/actor_critic.py:134-144 | `TypeError` is raised exactly when `max_slice_length` is `None`. Otherwise the slice length is `max_slice_length + added_policy_slice_length`, and `include_final_state` holds exactly when it exceeds 1. `epochs` is `[-1]` exactly when `on_policy` is truthy and `None` otherwise. |
| `ActorCritic.A2CPolicyInputs` | trax/rl/actor_critic.py:203-222 | the result is the tuple exactly when actions, observations and old log-probs, each cut by `td`, have the advantages' leading shape; otherwise `AssertionError` is raised. The tuple is `(obs, act, advantages, old_logps)` with the cut fields. |
| `ActorCritic.A2CPolicyInputsTruncate` | trax/rl/actor_critic.py:207-222 | a consistent `(batch, length)` trajectory with `(batch, length - td)` advantages passes every assertion. Each part keeps the first `length - td` timesteps of every row, and nothing is cut when `td = 0`. |
| `ActorCritic.PolicyInputs` | trax/rl/actor_critic.py:117-130 | the `NotImplementedError` class is returned, not raised, exactly by the base class. A2C, PPO and AWR (which inherit A2C's `policy_inputs`, lines 203-222) return `A2CPolicyInputs` of the advantages computed from rewards, returns, the values, `gamma` and `td`, including its `AssertionError` path. |
| `ActorCritic.PolicyBatch` | trax/rl/actor_critic.py:139-151 | a missing `max_slice_length` raises `TypeError`. Value estimates not of shape `(policy_batch_size, slice_length, 1)` raise `AssertionError`. Otherwise the item is `policy_inputs` of the trajectory and the squeezed estimates. |
| `ActorCritic.PolicyBatchWellShaped` | trax/rl/actor_critic.py:139-151 | with well-shaped estimates, trajectory and advantages, a policy item is produced. It is the `NotImplementedError` class exactly for the base class. Otherwise it carries the computed advantages and observations cut to `max_slice_length` timesteps. |
| `ActorCritic.TrainedEpoch` | trax/rl/actor_critic.py:153-162 | with `n_shared_layers <= 0`, an epoch is just the value epoch and the policy epoch, each on its own trainer's state, with no copy. |
| `ActorCritic.EpochTiesSharedLayers` | trax/rl/actor_critic.py:153-162 | after a completed epoch with `n_shared_layers = n > 0`, the value and policy trainers agree on their first `n` weight blocks and slot-group-0 entries (on as many as the policy has, if fewer). The policy keeps the state its own epoch produced from the value-to-policy copy. |
| `ActorCritic.EpochKeepsUnsharedLayers` | trax/rl/actor_critic.py:156-162 | after a completed sharing epoch in which both the trained value state and the final policy state hold at least `n` weight blocks, the value trainer has as many blocks as its trained state, and its blocks from `n` on are those of that state. Without those premises the blocks after the copied prefix shift. |
| `ActorCritic.EpochFailsOnlyWithoutSlots` | trax/rl/actor_critic.py:153-162 | an epoch raises only when sharing is on and a trainer taking part in a copy has no slot groups. The exception is then `IndexError`. |
| `ActorCritic.ActorCriticTrainer.constructor` | trax/rl/actor_critic.py:71-80 | the trainer keeps its class, its configuration and two distinct subtrainers. |
| `ActorCritic.ActorCriticTrainer.TrainEpoch` | trax/rl/actor_critic.py:153-162 | the in-place epoch runs value training, then the value-to-policy copy, then policy training, then the policy-to-value copy. It leaves both trainers and the outcome exactly as `TrainedEpoch` gives from their old states. |

## Findings

| source | as written | input that shows it | evidently intended | confidence | as-written member | corrected member |
|---|---|---|---|---|---|---|
| trax/rl/actor_critic.py:177-180 | `from_slots` is already `slots[0][start:end]`, then sliced again with `[start:end]` | `start=1, end=2`, source group `[10,11,12]`, destination group `[20,21,22]` gives `[20,22]` | `to_slots[start:end] = from_slots` (the comment on line 179), giving `[20,11,22]` | high for `start > 0`, harmless for the only caller, which uses `start = 0`; not executed | `WeightSharing.SlotSpliceDropsRange` | `PySlices.CopyRange`, proved in `PySlices.CopyRangeReplacesOnlyRange` |

`CopyInto` and `CopyModelWeights` keep the as-written splice, because they
model the code. The epoch lemmas go through `SlotSpliceAtZero`, so they reason
about the corrected `CopyRange`. That is also the splice the weights get.

## Left out

- `A2CLoss`, `PPOLoss`, `AWRLoss` and the `policy_loss` properties (lines
  190-195, 224-228, 232-250, 264-268, 272-278, 292-297): floating-point
  `exp`/`clip`/`mean` over tensors and distribution log-probabilities that are
  not part of this model. The `epsilon`, `beta` and `w_max` constructor
  arguments of PPO and AWR only feed them.
- Constructor plumbing (lines 81-105) is left out: creating the output
  directory, building the `supervised.Trainer` and its `Inputs`, initialising
  the evaluation value model (which consumes one value batch), and the
  policy-trainer base constructor. This is file-system I/O and library code.
  The constructor keeps only the fields the modelled operations read.
- Evaluating the value model and synchronising its weights from the value
  trainer (lines 145-147) are not modelled. `PolicyBatch` takes the model's
  output as a parameter, and only its shape and contents are used.
- `computation_utils.calculate_advantage` is not part of this model. It is the
  `AdvantageFn` parameter, and the advantages' shape is a premise of the
  lemmas, not a computed fact.
- Generator laziness and the task's `trajectory_batch_stream` are left out.
  Each stream is modelled as the request it makes and the item it yields for
  one trajectory batch.
- Each subtrainer's own `train_epoch` optimisation is the opaque `Engine`
  parameter.
- Array ranks are fixed by the types. Line 218's check that the advantages are
  2-D therefore always holds, and a value-model output of the wrong rank cannot
  be represented; only a wrong batch, length or depth can.
- Aliasing between the list the `model_weights` getter returns and the
  trainer's internal state is not modelled. The weights are values, and the
  final state is the same either way.
