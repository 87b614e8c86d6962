# genrl: contextual UCB bandit policy and value-head selection

This project models two parts of genrl.

The first is the contextual Upper-Confidence-Bound policy `UCBCBPolicy`. It is
modelled in `ucb.dfy` as a Dafny class. The class has two `bandits × arms`
tables, the running reward means (`quality`) and the visit counts (`counts`).
It also has the cumulative regret and the action, reward and regret histories.

- `select_action` scores every arm of one context row and returns the first
  arm with the highest score, as `np.argmax` does. It then logs
  `(context, action)`.
- `update_params` does four things in order. It logs the reward. It adds the
  gap between the best estimate in the row and the chosen arm's estimate to
  the regret, reading the estimates before they change, and logs the new
  regret. It moves the chosen cell's estimate towards the reward by
  1/(n + 1). It counts the visit.

The policy carries a ghost log of every update it has seen. `Valid()` ties
each cell to that log: the count is the number of rewards logged for the
cell, and the estimate is their running mean. A separate lemma proves the
running mean equals the arithmetic mean, however updates to other cells are
interleaved. `Valid()` also ties the histories to the log and keeps the
recorded regret non-decreasing.

The second part is value-function head selection, modelled in `values.dfy`
as pure functions.

- `_get_val_model` turns a value kind (`"V"`, `"Qsa"`, `"Qs"`) and the
  dimensions into the width list handed to a network builder.
- `MlpValue` and `CNNValue` feed their dimensions and defaults into it.
- `get_value_from_name` looks a class up in the two-entry registry.

A built network is represented by the builder call that would build it
(`NetSpec`: builder, widths, activation). Python exceptions are `Err` values.

Numbers are exact: `quality`, rewards and regret are `real`, and counts are
`nat`. The UCB exploration term `sqrt(2·ln(t+1)/(n+1))` is a parameter
`bonus(t, n)` of `SelectAction`. The `confidence` factor is kept explicit.

Initial state: the source reads `self.counts` but only assigns `self._counts`,
and the histories and `_regret` live in a base class that is not part of this
model. The constructor therefore fixes the initial state itself: `counts` is
the count table, all histories start empty and the regret starts at 0.

Range checks: the code does none on `context` or `action`. An out-of-range
index raises numpy's `IndexError`, and a negative one silently indexes from
the end of the row. The model puts the ranges in `requires` clauses rather
than modelling numpy's negative indexing.

## Model

| member | source | states |
|---|---|---|
| UcbPolicy.UCBCBPolicy.constructor | genrl/classical/bandit/contextual_policies/ucb.py:20-24 | both tables are zeros of shape (bandits, arms); confidence is stored; regret is 0; all histories start empty; the policy starts valid |
| UcbPolicy.UCBCBPolicy.SelectAction | genrl/classical/bandit/contextual_policies/ucb.py:60-65 | returns an arm in [0, arms) whose score `quality + confidence·bonus(t, count)` is at least every other score in the row and strictly above every score at a lower index; appends exactly (context, action) to the action history; changes neither table, the regret nor the other histories |
| UcbPolicy.UCBCBPolicy.ScoreFavoursLessTried | genrl/classical/bandit/contextual_policies/ucb.py:60-63 | for a non-negative confidence and a bonus that does not grow with the count, an arm estimated at least as good and tried at most as often scores at least as high |
| UcbPolicy.UCBCBPolicy.Score | genrl/classical/bandit/contextual_policies/ucb.py:61-62 | the UCB score of an arm: with confidence 0 it is the arm's estimate alone; with a non-negative confidence and bonus it is never below the estimate |
| UcbPolicy.UCBCBPolicy.Scores | genrl/classical/bandit/contextual_policies/ucb.py:60-63 | the row handed to `np.argmax`: one score per arm of the context, in arm order |
| UcbPolicy.UCBCBPolicy.QualityRow | genrl/classical/bandit/contextual_policies/ucb.py:83 | `self.quality[context]`: one estimate per arm, each the table entry of that arm in that context |
| UcbPolicy.UCBCBPolicy.RegretIncrement | genrl/classical/bandit/contextual_policies/ucb.py:83 | the regret increment is the best estimate in the row minus the chosen arm's estimate: it is the gap to some arm of the row, at least the gap to every arm, and never negative |
| UcbPolicy.UCBCBPolicy.UpdateParams | genrl/classical/bandit/contextual_policies/ucb.py:82-88 | appends the reward to the reward history; raises the regret by the pre-update gap between the row's best estimate and the chosen arm's, so the regret never decreases; appends the new regret to the regret history; sets the chosen estimate to q + (reward - q)/(n + 1) and the chosen count to n + 1, with q and n the values before the call; leaves every other cell and the action history unchanged; keeps the policy valid |
| UcbPolicy.UCBCBPolicy.StepTables | genrl/classical/bandit/contextual_policies/ucb.py:85-88 | writes q + (reward - q)/(n + 1) and n + 1 into the chosen cell and nothing else, and every cell then holds the count and running mean of the rewards logged for it once this update is logged |
| UcbPolicy.UCBCBPolicy.QualityIsMean | genrl/classical/bandit/contextual_policies/ucb.py:23-24 | in a valid policy each count is the number of rewards logged for its cell and each estimate is their arithmetic mean, whatever the interleaving of updates to other cells |
| UcbPolicy.UCBCBPolicy.RegretHistoryMonotone | genrl/classical/bandit/contextual_policies/ucb.py:83-84 | the recorded regrets are never negative, never decrease, and none exceeds the current regret |
| BanditStats.ArgMax | genrl/classical/bandit/contextual_policies/ucb.py:60-63 | `np.argmax` of a non-empty row: an index of the row holding a maximum, strictly above every entry at a lower index |
| BanditStats.ArgMaxUnique | genrl/classical/bandit/contextual_policies/ucb.py:60-63 | the first-maximum index is unique: any index that is a maximum and beats every lower index is the one ArgMax returns |
| BanditStats.RowMax | genrl/classical/bandit/contextual_policies/ucb.py:83 | Python's `max` of a non-empty row is an entry of the row that no entry exceeds |
| BanditStats.RegretGap | genrl/classical/bandit/contextual_policies/ucb.py:83 | the regret of choosing an arm is never negative, and it is 0 exactly when no arm in the row has a higher estimate |
| BanditStats.IncrementalMean | genrl/classical/bandit/contextual_policies/ucb.py:85-87 | the update q + (r - q)/(n + 1) turns the mean of n rewards into the mean of those n rewards and r |
| BanditStats.IncrementalStepBetween | genrl/classical/bandit/contextual_policies/ucb.py:85-87 | the incremental update lands between the old estimate and the new reward, and on a cell never visited it lands on the reward itself |
| BanditStats.RunningMeanIsMean | genrl/classical/bandit/contextual_policies/ucb.py:85-88 | applying the incremental update reward by reward from 0 gives the arithmetic mean of the rewards |
| BanditStats.SumBounds | genrl/classical/bandit/contextual_policies/ucb.py:85-87 | the sum of n rewards in [lo, hi] lies in [n·lo, n·hi] |
| BanditStats.MeanWithinRange | genrl/classical/bandit/contextual_policies/ucb.py:85-87 | an estimate never leaves the range of the rewards it averages |
| BanditStats.CellRewards | genrl/classical/bandit/contextual_policies/ucb.py:85-88 | a cell never sees more rewards than there were updates |
| BanditStats.CellRewardsConcat | genrl/classical/bandit/contextual_policies/ucb.py:85-88 | the rewards a cell sees over two stretches of updates are those of the first stretch followed by those of the second |
| BanditStats.CellRewardsAppend | genrl/classical/bandit/contextual_policies/ucb.py:85-88 | one more update adds its reward to the rewards of the cell it touches and to no other cell |
| BanditStats.CellStep | genrl/classical/bandit/contextual_policies/ucb.py:85-88 | one update keeps every cell's count and running mean in agreement with the extended log: the touched cell by one incremental step and one more visit, every other cell by staying put |
| BanditStats.Rewards | genrl/classical/bandit/contextual_policies/ucb.py:82 | the reward history holds one reward per update |
| BanditStats.AccumulatingBetween | genrl/classical/bandit/contextual_policies/ucb.py:83-84 | a regret history built from non-negative increments starting at 0 is non-negative and non-decreasing |
| BanditStats.HistoryStep | genrl/classical/bandit/contextual_policies/ucb.py:82-84 | an update that logs its reward and adds a non-negative gap to the regret keeps the reward history, the regret history and the current regret in step with the log |
| Values.GetValModel | genrl/deep/common/values.py:33-42 | succeeds exactly for kind "V", or for "Qsa" and "Qs" given an action dimension; kind "V" gives widths [state] ++ hidden ++ [1], "Qsa" gives [state + action] ++ hidden ++ [1], "Qs" gives [state] ++ hidden ++ [action]; any other kind is ValueError; a Q kind without an action dimension is TypeError; every success has length len(hidden) + 2 with the hidden widths in order in between; builder and activation are passed through |
| Values.NewMlpValue | genrl/deep/common/values.py:60-77 | an MLP value function is built exactly for kind "V", or for "Qsa" and "Qs" given an action dimension, and otherwise fails with the width selection's error; it keeps its state and action dimensions and builds an MLP head with the selected widths and the activation from its keyword arguments ("relu" when absent) |
| Values.MlpValueDefaults | genrl/deep/common/values.py:60-73 | with all defaults (kind "V", hidden (32, 32), no activation given) the head is an MLP with widths [state, 32, 32, 1] and "relu" |
| Values.NewCnnValue | genrl/deep/common/values.py:95-111 | a CNN value function fails with ValueError exactly when the kind is unknown; its trunk has channels (framestack, 16, 32) and the requested activation; its dense head is an MLP whose input width is the trunk's output size, whose widths come from the same selection with the action dimension, and whose activation is always "relu" |
| Values.Activation | genrl/deep/common/values.py:73 | the activation is the `activation` keyword argument when given and "relu" otherwise |
| Values.CnnValueDefaults | genrl/deep/common/values.py:95-111 | with the default kind "Qs" and layers (256,), the dense head has widths [output size, 256, action] and "relu", whatever activation the trunk is given |
| Values.GetValueFromName | genrl/deep/common/values.py:120-133 | returns a class exactly for "mlp" and "cnn", the class registered under that name, and NotImplementedError for any other name |
| Values.RegistryRoundTrip | genrl/deep/common/values.py:120-133 | looking up each class by its registry name returns that class |

## Left out

- The A2C agent (genrl/deep/agents/a2c/a2c.py) is not part of this model. It is built from PyTorch networks, optimizers, gym spaces and a rollout buffer whose code is not available, and its losses are floating-point tensor reductions.
- UcbPolicy.UCBCBPolicy.SelectAction: the bonus `sqrt(2·ln(t+1)/(counts+1))` is a parameter `bonus(t, n)`, not computed, because square roots and logarithms are not exact over `real`. Its monotonicity in the count is assumed in ScoreFavoursLessTried, not proved.
- Floating point: estimates, rewards and regret are exact reals. Rounding in numpy's float64 arithmetic, and so the exactness of the incremental mean, is not modelled.
- Counts: numpy stores them as floats; here they are natural numbers.
- UcbPolicy.UCBCBPolicy.SelectAction: it requires at least one arm, because `np.argmax` of an empty row raises ValueError. That error path is not modelled.
- Index checks: `context` and `action` are required to be in range. numpy's IndexError for out-of-range indices and its wrap-around for negative ones are not modelled.
- The base class `CBPolicy` is not part of this model. Its initial state is fixed by the constructor: `counts` is the count table, the histories start empty and the regret starts at 0. The bandit object is reduced to its two dimensions.
- Values.GetValModel: for kind "Qs" without an action dimension, Python builds the list `[state, …, None]` and the foreign builder then fails. The model reports TypeError at once.
- The network builders `mlp` and `cnn` are foreign. A head is represented by its builder call, and the output size of `cnn` is a parameter of NewCnnValue.
- `CNNValue.forward`, a tensor reshape through the two networks, is not modelled.
- The registry returns classes, not instances. The model returns a tag per class.
