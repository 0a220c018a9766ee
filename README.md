# Ensemble and QRegressor approximators, modelled in Dafny

This project models the approximator-composition layer of the mushroom
reinforcement-learning library:

- `Ensemble` (`ensemble.dfy`) keeps a fixed list of
  regressors built alike. `fit` trains exactly one member: the indexed one,
  or one chosen at random. `predict` without an index skips the members that
  are still unfitted and combines the rest elementwise by mean or sum. With
  an index, `predict` asks that one member. `reset` resets every member.
- `QRegressor` (`q_regressor.dfy`) wraps one regressor. It runs lists of
  input and output preprocessors (`preprocessing.dfy`) before `fit` and
  `predict`. It either returns the whole Q-value output or picks one value
  per action the way numpy integer-array indexing does (`action_selection.dfy`).

Shared pieces:

- `common.dfy` holds the error kinds, which replace Python's exceptions, and
  Python's sequence-index rule (negative indices count from the back).
- `arrays.dfy` holds numpy float arrays, written as a shape plus row-major
  data whose length the shape fixes.
- `aggregation.dfy` holds the elementwise mean and sum.
- `regressor.dfy` holds the wrapped regressor. It has a `fitted` flag and
  weights. A `Family` value fixes how it trains, predicts, differentiates and
  measures its length, and whether it has `reset`. An unfitted regressor
  answers `predict` with NotFitted. Resetting restores the family's initial
  weights. A family without `reset` answers AttributeError.

The Ensemble's member list and the QRegressor's model and preprocessor lists
are constant fields: fit, predict and reset change member state, never the
list itself. So `len()` keeps the count the constructor made.

## Model

| member | source | states |
|---|---|---|
| `Common.NormIndex` | mushroom/approximators/_implementations/ensemble.py:111-112 | a list index is valid exactly in `[-n, n)` and then names the position congruent to it modulo `n`; any other index is an IndexError |
| `Common.RangeLength` | mushroom/approximators/_implementations/ensemble.py:26 | `range(n_models)` runs `n_models` times when positive and not at all otherwise |
| `Ensembles.Ensemble.constructor` | mushroom/approximators/_implementations/ensemble.py:23-27 | builds `max(n_models, 0)` distinct fresh members from one family, all unfitted with initial weights, and keeps the mode (default "mean") |
| `Ensembles.Ensemble.Fit` | mushroom/approximators/_implementations/ensemble.py:40-44 | trains exactly one member, at a position in `[0, len)`, and leaves every other member unchanged; with an index it is the position that index names (IndexError when out of range, nothing trained); without one any position may be chosen, and an empty ensemble gives ValueError |
| `Ensembles.Ensemble.Predict` | mushroom/approximators/_implementations/ensemble.py:59-85 | without an index the result combines the fitted members' predictions in member order; it is NotFitted exactly when no member is fitted; an unknown mode gives ValueError once some member is fitted; with an index it is that member's own answer, NotFitted included, even when others are fitted |
| `Ensembles.Ensemble.CollectPredictions` | mushroom/approximators/_implementations/ensemble.py:61-66 | asks the members in order and keeps exactly the answers of those that succeed, in member order, never more than there are members |
| `Ensembles.Ensemble.SurvivorsIffFitted` | mushroom/approximators/_implementations/ensemble.py:61-69 | no prediction is collected exactly when no member is fitted |
| `Ensembles.Ensemble.OneFittedMember` | mushroom/approximators/_implementations/ensemble.py:60-74 | with exactly one fitted member and mode "mean" or "sum", that member's prediction is the only survivor and the combined result equals it |
| `Ensembles.Ensemble.Reset` | mushroom/approximators/_implementations/ensemble.py:92-97 | a family with `reset` restores every member's initial weights; without it the result is NotImplemented and no member changes; an empty ensemble resets trivially; fitted flags stay as they were |
| `Ensembles.Ensemble.Model` | mushroom/approximators/_implementations/ensemble.py:99-106 | returns the member list itself |
| `Ensembles.Ensemble.Len` | mushroom/approximators/_implementations/ensemble.py:108-109 | the number of members, a constant field, so fit, predict and reset keep it |
| `Ensembles.Ensemble.GetItem` | mushroom/approximators/_implementations/ensemble.py:111-112 | gives the `idx`-th member for `0 <= idx < len`, member `len + idx` for a negative `idx >= -len`, and IndexError otherwise |
| `Aggregation.NoSurvivors` | mushroom/approximators/_implementations/ensemble.py:61-69 | no prediction survives exactly when every member's prediction failed |
| `Aggregation.SurvivorIsOutcome` | mushroom/approximators/_implementations/ensemble.py:61-66 | a prediction is collected exactly when some member delivered it |
| `Aggregation.SoleSurvivor` | mushroom/approximators/_implementations/ensemble.py:61-66 | when only member `k` succeeds, the collected list is its prediction alone |
| `Aggregation.Combine` | mushroom/approximators/_implementations/ensemble.py:71-76 | succeeds exactly for mode "mean" or "sum" on predictions of one shape, keeping that shape; every failure is ValueError |
| `Aggregation.CombineOne` | mushroom/approximators/_implementations/ensemble.py:71-74 | mean and sum of a single prediction are that prediction |
| `Aggregation.CombineTwo` | mushroom/approximators/_implementations/ensemble.py:71-74 | for two predictions `a`, `b` of one shape, "sum" gives `a + b` and "mean" gives `(a + b) / 2`, element by element |
| `Aggregation.CombineReorder` | mushroom/approximators/_implementations/ensemble.py:61-74 | the order in which predictions are collected does not matter: any reordering of them gives the same result, or the same ValueError, in either mode |
| `Aggregation.ColumnReorder` | mushroom/approximators/_implementations/ensemble.py:74 | one element's total over the stack is the same for any reordering of the stack |
| `Aggregation.TotalSplit` | mushroom/approximators/_implementations/ensemble.py:74 | the total of a concatenation of values is the sum of the totals of the two parts, so the elementwise sum does not depend on how the stack is split |
| `QRegressors.QRegressor.constructor` | mushroom/approximators/_implementations/q_regressor.py:22-24 | keeps both preprocessor lists, empty by default, and builds a fresh unfitted model from the family |
| `QRegressors.QRegressor.Preprocess` | mushroom/approximators/_implementations/q_regressor.py:94-103 | returns the state after the input preprocessors, in list order, alone when no Q-values are given and paired with the Q-values after the output preprocessors, in list order, when they are |
| `Preprocessing.ChainFirst` | mushroom/approximators/_implementations/q_regressor.py:95-96 | the first preprocessor sees the raw input and the rest see its output |
| `Preprocessing.ChainAppend` | mushroom/approximators/_implementations/q_regressor.py:95-100 | running a list and then another is running their concatenation |
| `QRegressors.QRegressor.Fit` | mushroom/approximators/_implementations/q_regressor.py:38-39 | fits the model on the preprocessed state and Q-values with the action unmodified; the model is fitted afterwards |
| `QRegressors.QRegressor.Predict` | mushroom/approximators/_implementations/q_regressor.py:56-68 | any argument count other than 1 or 2 is an AssertionError; with a state only, it is the model's prediction on the preprocessed state, unchanged; with state and action, that prediction's values at the actions; an unfitted model gives NotFitted |
| `ActionSelection.SelectActions` | mushroom/approximators/_implementations/q_regressor.py:61-66 | non-integral actions or a scalar output give IndexError; on a vector output the result has one value per action and succeeds exactly when every action is in range; on a batch output it succeeds exactly when the row count and action count broadcast and every action is in range, giving one entry per broadcast position |
| `ActionSelection.Take` | mushroom/approximators/_implementations/q_regressor.py:63-64 | `q[action]` on a vector: succeeds exactly when all actions lie in `[-n, n)`; element `j` is `q[action[j]]`, counted from the back for a negative action |
| `ActionSelection.RowGather` | mushroom/approximators/_implementations/q_regressor.py:65-66 | `q[arange(b), action]`: succeeds exactly when `b` and the action count broadcast and all actions lie in `[-n_actions, n_actions)`; the result has the broadcast length followed by the trailing dimensions |
| `ActionSelection.MatrixPick` | mushroom/approximators/_implementations/q_regressor.py:65-66 | on a matrix, broadcast position `k` is the value in row `k` (row 0 when there is one row) at action `k` (the single action when there is one), a negative action counting from the back |
| `ActionSelection.GatherPerRow` | mushroom/approximators/_implementations/q_regressor.py:65-66 | with `batch` rows and `batch` in-range actions the result has exactly `batch` values, element `i` being `q[i][action[i]]` |
| `ActionSelection.GatherOneAction` | mushroom/approximators/_implementations/q_regressor.py:65-66 | a single in-range action broadcasts: every row yields its value at that action |
| `QRegressors.QRegressor.Reset` | mushroom/approximators/_implementations/q_regressor.py:75-79 | delegates to the model's reset; a model without `reset` gives NotImplemented and is left unchanged |
| `QRegressors.QRegressor.WeightsSize` | mushroom/approximators/_implementations/q_regressor.py:81-83 | is the model's weights size |
| `QRegressors.QRegressor.GetWeights` | mushroom/approximators/_implementations/q_regressor.py:85-86 | is the model's weights |
| `QRegressors.QRegressor.SetWeights` | mushroom/approximators/_implementations/q_regressor.py:88-89 | the model holds exactly the given weights afterwards, fitted flag unchanged |
| `QRegressors.QRegressor.Diff` | mushroom/approximators/_implementations/q_regressor.py:91-92 | is the model's `diff` on the same state and optional action |
| `QRegressors.QRegressor.Len` | mushroom/approximators/_implementations/q_regressor.py:105-106 | is the model's length |

## Left out

- The `compute_variance` option of `Ensemble.predict` (ensemble.py:77-78) is not modelled. There `[results] + np.var(...)` broadcasts an addition instead of pairing the aggregate with the variance. With one surviving member the `ddof=1` variance also divides by zero.
- Numerics are exact: predictions, weights and Q-values are Dafny reals. The model has no floating-point rounding, NaN or infinities.
- The regressors themselves (sklearn estimators, neural networks) are outside the model. Each is a `Family` of total functions, and its `fit` and `predict` never fail except for NotFitted before the first fit.
- Regressors.Regressor.Reset: whether a regressor can be reset is a property of its whole family, so all members of an ensemble answer alike. An ensemble `reset` that fails at member i > 0, after members 0 to i-1 were already reset (ensemble.py:93-96), cannot arise in the model.
- Weight accessors, `diff` and `len` are assumed present on the wrapped model. One without them would raise AttributeError, which the model does not represent.
- `**fit_params` and `**predict_params` beyond `idx` are not passed on. `idx` is an explicit optional integer, not an arbitrary Python object.
- The random choice of a member in `Ensemble.fit` is nondeterministic (`:|`). Its uniform distribution is not modelled.
- Array dtypes are not modelled. An action array counts as integral when its entries are whole numbers; numpy decides by integer dtype and rejects a float array even of whole numbers. Boolean-mask indexing is not modelled.
- Stacking member predictions of different shapes is a ValueError here, as in current numpy. Older numpy built an object array instead.
- `Ensemble.model` returns the list object itself; the model does not represent callers who mutate that list.
- Preprocessors are pure functions on arrays; stateful callables are not modelled.
- mushroom/utils/callbacks.py and mushroom/policy/__init__.py are not part of this model. They hold logging and dataset-collection callbacks and re-exports.
