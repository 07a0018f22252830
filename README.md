# Liquidity-pool environment and its episode drivers

A model of the core of `rl-liquidity-project`. At its centre is a toy
liquidity-pool market, `LiquidityEnv`. Its state is liquidity, volatility, the
offered APY and a step counter. Each step takes one of five action indices, which
move the APY by -20, -10, 0, +10 or +20 basis points. The APY is clamped to
[0.02, 0.25]. Liquidity then moves with the APY's distance from a 5% anchor, and
volatility falls with liquidity plus a Gaussian noise sample. The reward is
`1.0 * liquidity - 0.5 * volatility - 0.2 * apy`, and an episode terminates once
500 steps have run since the last reset.

Around the environment sit five episode drivers. Each one resets an environment
and then, for at most `max_steps` iterations, chooses an action, steps and
records, breaking out after the first step that reports done:

- `run_episode_with_model` and `run_episode_with_rule` sum the rewards, the
  second under a threshold rule on liquidity.
- `run_single_episode` sums the rewards and keeps per-step histories.
- `log_single_episode` builds one row per step.
- `run_episode_with_model` in `episode_runner` builds one column per field, on
  an environment of its own.
- The dashboard's `run_comparison` runs the trained model and a manual action
  list on two fresh environments. It cuts both trajectories to the shorter one
  and tabulates them side by side, with adapters for the old and new gym
  `reset`/`step` conventions.

How it is laid out:

- `Env` holds the environment as a class whose `Step` mutates its fields. `Step`
  is proved against the pure `Transition` function, and the lemmas about the
  market dynamics are stated over `Transition`.
- `Episodes` holds `RunFrom`/`Episode`, the loop every driver shares, written as
  a function. The lemmas about episode length, stopping at the first done step,
  well-formed records and the error paths are proved once there.
- Each driver is a method with a `while` loop. Its loop invariants tie the
  driver's accumulators to a specification function of the steps recorded so
  far, and its postcondition states the driver's output as that function of
  `Episode(...)`.
- Lemmas beside each specification function say what it means: for instance,
  that history entry i or row i is step i's observation, reward and action.

Python exceptions are modelled as `Err` results:

- `KeyError(i)`: `int(action)` is not one of the five indices, and the
  environment is left unchanged.
- `IndexError(-1)`: a step is taken with an empty manual action list.

The Gaussian volatility noise becomes a parameter `noise: nat -> real`, indexed
by the loop index of the step. The trained model's deterministic `predict`
becomes a parameter `model: Obs -> int`.

Three points of the code are easy to misread, and the model follows the code:

- **Manual actions are truncated, not applied as continuous deltas.** The
  dashboard offers an "APY change per step (%)" slider over [-5, 5]
  (dashboard/app.py:23-25) and builds manual actions from it divided by 100, or
  from ramps and uniform draws within [-0.05, 0.05] (dashboard/app.py:34-42).
  `run_comparison` passes each such value to `step`, which looks up
  `int(action)` in the five-entry delta map (env/liquidity_env.py:84).
  - Every manual value strictly between -1 and 1 (0.0, +0.001, -0.5) therefore
    becomes index 0, which is -20 bp, so every list the dashboard builds lowers
    the APY by 20 bp per step down to the floor.
  - Against a model that holds the APY, ten manual zeros do not keep the manual
    APY at 0.05: it falls by 20 bp per step, as
    `ManualVsRl.HoldVersusFractional` proves.
  - A value of 5.0 or more, or -1.0 or less, raises `KeyError`.
- **Termination is `step_count >= 500`** (env/liquidity_env.py:116). From a
  reset the counter first reaches 500 on the 500th step, and
  `Episodes.EpisodeLengthIsBounded` proves that only that step reports done.
- **Both environments draw from one global random generator**
  (`np.random.normal`, env/liquidity_env.py:103). The model takes two separate
  parameters, `rlNoise` and `manualNoise`. This covers the code's behaviour,
  where the manual run's draws are simply the continuation of the generator
  after the model's run.

## Model

| member | source | states |
|---|---|---|
| Env.Initial | env/liquidity_env.py:62-67 | the reset state is liquidity 0.5, volatility 0.2, APY 0.05 with no steps run, and it lies within the clamped ranges |
| Env.Clip | env/liquidity_env.py:87-89 | `np.clip`: the result lies in [lo, hi], equals x inside the range and the nearer bound outside it |
| Env.LiquidityEnv.constructor | env/liquidity_env.py:35-56 | a new environment is reset on construction |
| Env.LiquidityEnv.Reset | env/liquidity_env.py:58-73 | reset restores the start values whatever the prior state and returns the start observation with an empty info |
| Env.LiquidityEnv.Step | env/liquidity_env.py:75-124 | the new fields are exactly the pure transition of the old ones; an index outside 0..4 raises KeyError with nothing changed; on success the state stays in range, the counter grows by one, and obs, reward and terminated are those of the new fields |
| Env.TransitionContract | env/liquidity_env.py:75-117 | a step fails exactly when `int(action)` is not in 0..4, with the KeyError of that index, and otherwise lands in range with the counter one higher |
| Env.DeltaMapShape | env/liquidity_env.py:77-84 | the delta map is keyed by exactly the indices 0..4 and maps index i to (i - 2) * 10 bp |
| Env.TruncTowardZero | env/liquidity_env.py:84 | `int(x)` is the integer next to x in the direction of zero, from below for x >= 0 and from above for x < 0 |
| Env.TruncOfInt | env/liquidity_env.py:84 | `int()` of an integral action gives the same index back |
| Env.TruncFraction | env/liquidity_env.py:84 | every action strictly between -1 and 1 truncates to index 0, the -20 bp delta |
| Env.TruncIsNotFloor | env/liquidity_env.py:84 | `int(-0.5)` is 0, while flooring would give -1 |
| Env.ObsInRangeIff | env/liquidity_env.py:119-122 | an observation is in range exactly when the state it shows is |
| Env.RewardBounds | env/liquidity_env.py:108-113 | the reward of every in-range state lies in [-0.55, 0.996] |
| Env.RewardExample | env/liquidity_env.py:51-54 | with weights 1.0, 0.5 and 0.2, liquidity 0.7, volatility 0.1 and APY 0.1 earn 0.63 |
| Env.ApyClamped | env/liquidity_env.py:86-89 | after any successful step the APY is within [0.02, 0.25], whatever it was before |
| Env.LiquidityDirection | env/liquidity_env.py:94-100 | liquidity does not fall when the new APY is above the 5% anchor, does not rise below it, and stays put at it |
| Env.NeutralActionKeepsApy | env/liquidity_env.py:77-89 | the 0 bp action leaves an in-range APY unchanged and never raises |
| Env.ApyMonotoneInAction | env/liquidity_env.py:77-89 | from the same state a larger action index never gives a lower APY |
| Env.NoiseOnlyMovesVolatility | env/liquidity_env.py:102-106 | the noise sample affects only volatility: liquidity, APY and the counter are the same for any two samples |
| Episodes.ActionAtIndex | dashboard/manual_vs_rl.py:61 | a policy's action is its answer to the observation; the manual action at t is element t while the list lasts, then its last element; an empty list raises IndexError(-1) |
| Episodes.RunStopsAtFirstDone | rl/compare_policies.py:13-18 | a run keeps earlier records, adds at most its budget, no added record but the last is done, and a run shorter than its budget ends on a done record |
| Episodes.RunRecordsWellFormed | env/liquidity_env.py:84-124 | every record a run adds has an in-range observation, the reward of that observation and a valid action index |
| Episodes.RunStepCount | env/liquidity_env.py:115-117 | a run from a state with fewer than 500 steps adds exactly min(budget, 500 - steps) records, and a record is done exactly when it is the 500th step |
| Episodes.EpisodeLengthIsBounded | rl/compare_policies.py:9-20 | a successful episode from reset has exactly min(max_steps, 500) steps, and only the 500th reports done |
| Episodes.EpisodeStopsAtFirstDone | rl/compare_policies.py:13-18 | an episode has at most `range(max_steps)` steps, and only its last step can be done; one shorter than that ends on a done step |
| Episodes.EpisodeRecordsWellFormed | env/liquidity_env.py:84-124 | every step of a successful episode is well formed |
| Episodes.EpisodeFinalState | env/liquidity_env.py:84-124 | after a successful episode the environment is in range, its counter is min(max_steps, 500), and it shows the observation of the last step |
| Episodes.RunSucceeds | env/liquidity_env.py:84 | a controller whose every action truncates to 0..4 never raises |
| Episodes.RunFailure | env/liquidity_env.py:84 | a failed run raised the IndexError of an empty manual list or the KeyError of an index outside 0..4 |
| Episodes.NeutralPolicyKeepsApy | env/liquidity_env.py:77-89 | a policy that always answers index 2 never raises and keeps APY at its starting value on every step |
| ComparePolicies.RuleBasedPolicy | rl/compare_policies.py:23-37 | index 4 exactly when liquidity < 0.4, 1 exactly when > 0.6, 2 exactly in between; the APY moves up when liquidity is low and down when high |
| ComparePolicies.RuleEpisodeSucceeds | rl/compare_policies.py:40-51 | an episode under the rule never raises |
| ComparePolicies.RunEpisodeWithModel | rl/compare_policies.py:9-20 | the result is the sum of the rewards of the steps of the model's episode, or that episode's exception; on success the caller's environment is left in the episode's final state |
| ComparePolicies.RunEpisodeWithRule | rl/compare_policies.py:40-51 | the rule's episode succeeds, the result is the sum of its steps' rewards, and the caller's environment is left in the episode's final state |
| EvalPpo.HistoriesSummarize | rl/eval_ppo.py:13-42 | the four histories have one entry per step, entry i is step i's liquidity, volatility, APY and reward, and the total is the sum of the reward history and of the episode's rewards |
| EvalPpo.RunSingleEpisode | rl/eval_ppo.py:9-42 | the result is the histories of the model's episode, or that episode's exception; on success the caller's environment is left in the episode's final state |
| LogTrajectory.RowsLogSteps | rl/log_trajectory.py:14-40 | one row per step; row i carries step number i, step i's observation and reward, and its action index |
| LogTrajectory.LogSingleEpisode | rl/log_trajectory.py:12-40 | the result is the rows of the model's episode, or that episode's exception; on success the caller's environment is left in the episode's final state |
| EpisodeRunner.ColumnsRecordSteps | rl/episode_runner.py:18-46 | all six columns have one entry per step; step column entry i is i, and the other columns hold step i's fields |
| EpisodeRunner.RunEpisodeWithModel | rl/episode_runner.py:13-46 | on an environment of its own, the result is the columns of the model's episode, or that episode's exception |
| ManualVsRl.ResetConventionsAgree | dashboard/manual_vs_rl.py:14-21 | a bare reset observation reads as that observation with an empty info; a pair passes through |
| ManualVsRl.StepConventionsAgree | dashboard/manual_vs_rl.py:24-32 | a five-field step reads as the four-field step whose done is `terminated or truncated`; obs, reward and info pass through |
| ManualVsRl.StepEnvDoneAtEpisodeEnd | dashboard/manual_vs_rl.py:27-29 | on this environment's steps the adapter's done holds exactly when 500 steps have run |
| ManualVsRl.RolloutModel | dashboard/manual_vs_rl.py:45-55 | the model's trajectory is the observations and rewards of the model's episode, or its exception; on success the environment is left in the episode's final state |
| ManualVsRl.RolloutManual | dashboard/manual_vs_rl.py:57-66 | the manual trajectory is the observations and rewards of the manual list's episode, or its exception; on success the environment is left in the episode's final state |
| ManualVsRl.RunComparison | dashboard/manual_vs_rl.py:35-85 | the table is the two episodes aligned on the shorter one, or the model run's exception, else the manual run's |
| ManualVsRl.ComparisonKeepsEveryStep | dashboard/manual_vs_rl.py:68-84 | when both runs succeed both have min(num_steps, 500) steps, nothing is cut, and row i holds step number i and step i's liquidity, volatility, APY and reward from each run |
| ManualVsRl.EmptyManualListRaises | dashboard/manual_vs_rl.py:61 | an empty manual list raises IndexError(-1) when at least one step is asked for, and gives an empty run otherwise |
| ManualVsRl.FractionalManualRun | dashboard/manual_vs_rl.py:60-66 | manual values strictly between -1 and 1 never raise, all truncate to index 0, and APY falls 20 bp per step down to 0.02 |
| ManualVsRl.FractionalManualEpisode | dashboard/manual_vs_rl.py:57-66 | from reset such a list gives APY max(0.02, 0.05 - 0.002 (i + 1)) at step i |
| ManualVsRl.HoldVersusFractional | dashboard/manual_vs_rl.py:35-85 | a hold-APY model against zero or fractional manual values: a row per step, model APY 0.05 on every row, manual APY strictly below it |

## Left out

- Floating point: all quantities are mathematical reals. The float32
  observation arrays, `float()`/`bool()` conversions and numpy rounding are not
  modelled.
- Randomness: `np.random.normal(0, 0.01)` is a caller-supplied sample per step
  (`noise: nat -> real`). Its distribution and the shared global generator
  state are not modelled.
- The trained model: `PPO.load`, `load_model`, `load_trained_model` and the
  Streamlit resource cache read files and are not modelled. `predict(obs,
  deterministic=True)` is a total function `Obs -> int`, and the `obs_flat`
  reshape before it is not modelled.
- `render()` and the `render` flag of `run_single_episode` only print. Every
  `main()` (episode loops over `n_episodes`, mean/std printing, CSV writing)
  is I/O and not modelled.
- `reset(seed, options)`: `options` is unused, and `seed` only seeds the
  environment's own gymnasium generator (env/liquidity_env.py:60), which `step`
  never reads; the noise comes from numpy's global generator, so a seeded reset
  does not make an episode reproducible. Neither argument is modelled. The gym `observation_space`/`action_space` declarations are
  not modelled either: the step does not consult them.
- The info dictionary is always empty in this environment; it is carried as an
  empty map.
- `_step_env` on a tuple of a length other than four or five (a
  Python unpacking error) is not modelled: the two datatypes admit only the
  two conventions.
- The pandas DataFrame of `run_comparison` is a sequence of row records with
  the same nine columns.
- `RunComparison` is proved through two helper methods, one per trajectory
  loop, rather than both loops in one body. The order is the same: the manual
  environment is created after the model's run.
