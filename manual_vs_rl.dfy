/**
 * The dashboard's side-by-side comparison: the trained model and a manual action
 * list each drive a fresh environment for up to `numSteps` steps, and the two
 * trajectories are aligned row by row.  The two small adapters accept both the
 * old and the new gym calling conventions.
 */
module ManualVsRl {
  import opened Base
  import opened Env
  import opened Episodes

  /** What `reset` may return: an (observation, info) pair, or the bare observation of the older API. */
  datatype ResetOutput = ResetPair(obs: Obs, info: Info) | ResetBare(bare: Obs)

  /** What `step` may return: the five-field tuple, or the older four-field tuple with a single done flag. */
  datatype StepOutput =
    | Step5(obs: Obs, reward: real, terminated: bool, truncated: bool, info: Info)
    | Step4(obs: Obs, reward: real, done: bool, info: Info)

  /** A step reduced to the four values the comparison uses. */
  datatype Normalized = Normalized(obs: Obs, reward: real, done: bool, info: Info)

  /** `_reset_env`: a bare observation comes with an empty info dictionary. */
  function ResetEnv(out: ResetOutput): (Obs, Info)
  {
    match out
    case ResetPair(obs, info) => (obs, info)
    case ResetBare(obs) => (obs, map[])
  }

  /** `_step_env`: with five fields, done means terminated or truncated. */
  function StepEnv(out: StepOutput): Normalized
  {
    match out
    case Step5(obs, reward, terminated, truncated, info) => Normalized(obs, reward, terminated || truncated, info)
    case Step4(obs, reward, done, info) => Normalized(obs, reward, done, info)
  }

  /** The two reset conventions agree: a bare observation reads as that observation with no info. */
  lemma ResetConventionsAgree(obs: Obs, info: Info)
    ensures ResetEnv(ResetBare(obs)) == ResetEnv(ResetPair(obs, map[]))
    ensures ResetEnv(ResetPair(obs, info)).0 == obs && ResetEnv(ResetPair(obs, info)).1 == info
  {
  }

  /**
   * The two step conventions agree: a five-field result reads exactly as the
   * four-field result whose done flag is `terminated or truncated`; observation,
   * reward and info pass through unchanged.
   */
  lemma StepConventionsAgree(obs: Obs, reward: real, terminated: bool, truncated: bool, info: Info)
    ensures StepEnv(Step5(obs, reward, terminated, truncated, info)) == StepEnv(Step4(obs, reward, terminated || truncated, info))
    ensures var n := StepEnv(Step4(obs, reward, terminated || truncated, info));
            n.obs == obs && n.reward == reward && n.info == info
  {
  }

  /** On this environment's own step results the adapter reports done exactly once 500 steps have run. */
  lemma StepEnvDoneAtEpisodeEnd(s: EnvState)
    ensures var out := OutcomeOf(s);
            StepEnv(Step5(out.obs, out.reward, out.terminated, out.truncated, map[])).done <==> s.stepCount >= EpisodeLength
  {
  }

  /** One row of the comparison table: the step index, then each trajectory's observation and reward at that step. */
  datatype ComparisonRow = ComparisonRow(
    step: int,
    rlLiquidity: real, rlVolatility: real, rlApy: real, rlReward: real,
    manualLiquidity: real, manualVolatility: real, manualApy: real, manualReward: real)

  /** The row for step `i`, built from the observation and reward each trajectory returned at that step. */
  function RowOf(i: int, rlObs: Obs, rlReward: real, manualObs: Obs, manualReward: real): ComparisonRow
  {
    ComparisonRow(i, rlObs.liquidity, rlObs.volatility, rlObs.apy, rlReward,
                  manualObs.liquidity, manualObs.volatility, manualObs.apy, manualReward)
  }

  /** The aligned table of two trajectories: as many rows as the shorter one has steps. */
  function Aligned(rl: seq<StepRecord>, manual: seq<StepRecord>): seq<ComparisonRow>
  {
    seq(Min(|rl|, |manual|), i requires 0 <= i < Min(|rl|, |manual|) =>
      RowOf(i, rl[i].obs, rl[i].reward, manual[i].obs, manual[i].reward))
  }

  /**
   * The trained model's half of the comparison: reset `env`, then step it with the
   * model's action at most `numSteps` times, stopping after the first done step;
   * the result is the observations and rewards the steps returned.
   */
  method RolloutModel(env: LiquidityEnv, model: Obs -> int, noise: nat -> real, numSteps: int)
    returns (r: Result<(seq<Obs>, seq<real>)>)
    modifies env
    ensures var ep := Episode(Policy(model), noise, numSteps);
            if ep.Ok? then r == Ok((Observations(ep.value), Rewards(ep.value))) else r == Err(ep.error)
    ensures r.Ok? ==> env.State() == FinalState(Episode(Policy(model), noise, numSteps).value)
  {
    var nextObs: seq<Obs> := [];
    var rewards: seq<real> := [];
    var resetObs, resetInfo := env.Reset();
    var obs := ResetEnv(ResetPair(resetObs, resetInfo)).0;
    ghost var recs: seq<StepRecord> := [];
    ghost var c := Policy(model);
    ghost var ep := Episode(c, noise, numSteps);
    var t := 0;
    assert ep == RunFrom(recs, env.State(), c, noise, t, numSteps - t);
    while t < numSteps
      invariant 0 <= t
      invariant obs == ObsOf(env.State())
      invariant nextObs == Observations(recs) && rewards == Rewards(recs)
      invariant env.State() == FinalState(recs)
      invariant ep == RunFrom(recs, env.State(), c, noise, t, numSteps - t)
    {
      var action := model(obs);
      RunFromStep(recs, env.State(), c, noise, t, numSteps - t, action as real);
      var stepped := env.Step(action as real, noise(t));
      if stepped.Err? {
        return Err(stepped.error);
      }
      var out := StepEnv(Step5(stepped.value.obs, stepped.value.reward, stepped.value.terminated, stepped.value.truncated, map[]));
      obs := out.obs;
      ghost var rec := RecordOf(action as real, env.State());
      ObservationsAppend(recs, rec);
      RewardsAppend(recs, rec);
      recs := recs + [rec];
      nextObs := nextObs + [out.obs];
      rewards := rewards + [out.reward];
      if out.done {
        break;
      }
      t := t + 1;
    }
    return Ok((nextObs, rewards));
  }

  /**
   * The manual half of the comparison: reset `env`, then step it at most `numSteps`
   * times with `manualActions[min(t, len - 1)]`, so that the last action repeats,
   * stopping after the first done step.  An empty list raises as soon as a step is
   * taken, with the index -1.
   */
  method RolloutManual(env: LiquidityEnv, manualActions: seq<real>, noise: nat -> real, numSteps: int)
    returns (r: Result<(seq<Obs>, seq<real>)>)
    modifies env
    ensures var ep := Episode(Manual(manualActions), noise, numSteps);
            if ep.Ok? then r == Ok((Observations(ep.value), Rewards(ep.value))) else r == Err(ep.error)
    ensures r.Ok? ==> env.State() == FinalState(Episode(Manual(manualActions), noise, numSteps).value)
  {
    var nextObs: seq<Obs> := [];
    var rewards: seq<real> := [];
    var resetObs, resetInfo := env.Reset();
    var obs := ResetEnv(ResetPair(resetObs, resetInfo)).0;
    ghost var recs: seq<StepRecord> := [];
    ghost var c := Manual(manualActions);
    ghost var ep := Episode(c, noise, numSteps);
    var t := 0;
    assert ep == RunFrom(recs, env.State(), c, noise, t, numSteps - t);
    while t < numSteps
      invariant 0 <= t
      invariant nextObs == Observations(recs) && rewards == Rewards(recs)
      invariant env.State() == FinalState(recs)
      invariant ep == RunFrom(recs, env.State(), c, noise, t, numSteps - t)
    {
      var index := Min(t, |manualActions| - 1);
      if index < 0 {
        return Err(IndexError(index));
      }
      var action := manualActions[index];
      RunFromStep(recs, env.State(), c, noise, t, numSteps - t, action);
      var stepped := env.Step(action, noise(t));
      if stepped.Err? {
        return Err(stepped.error);
      }
      var out := StepEnv(Step5(stepped.value.obs, stepped.value.reward, stepped.value.terminated, stepped.value.truncated, map[]));
      obs := out.obs;
      ghost var rec := RecordOf(action, env.State());
      ObservationsAppend(recs, rec);
      RewardsAppend(recs, rec);
      recs := recs + [rec];
      nextObs := nextObs + [out.obs];
      rewards := rewards + [out.reward];
      if out.done {
        break;
      }
      t := t + 1;
    }
    return Ok((nextObs, rewards));
  }

  /**
   * Run the model on a fresh environment, then the manual list on a second fresh
   * environment created after the first run, each for at most `numSteps` steps;
   * then cut both trajectories to the shorter length and tabulate them row by row.
   * `rlNoise` and `manualNoise` are the volatility samples the two environments draw.
   */
  method RunComparison(manualActions: seq<real>, numSteps: int, model: Obs -> int, rlNoise: nat -> real, manualNoise: nat -> real)
    returns (r: Result<seq<ComparisonRow>>)
    ensures var rl := Episode(Policy(model), rlNoise, numSteps);
            var manual := Episode(Manual(manualActions), manualNoise, numSteps);
            r == if rl.Err? then Err(rl.error) else if manual.Err? then Err(manual.error) else Ok(Aligned(rl.value, manual.value))
  {
    var env := new LiquidityEnv();
    var rlRun := RolloutModel(env, model, rlNoise, numSteps);
    if rlRun.Err? {
      return Err(rlRun.error);
    }
    var (rlNextObs, rlRewards) := rlRun.value;

    var manualEnv := new LiquidityEnv();
    var manualRun := RolloutManual(manualEnv, manualActions, manualNoise, numSteps);
    if manualRun.Err? {
      return Err(manualRun.error);
    }
    var (manualNextObs, manualRewards) := manualRun.value;

    // align the two trajectories on the shorter one
    var steps := Min(|rlNextObs|, |manualNextObs|);
    rlNextObs := rlNextObs[..steps];
    rlRewards := rlRewards[..steps];
    manualNextObs := manualNextObs[..steps];
    manualRewards := manualRewards[..steps];
    var rows := seq(steps, i requires 0 <= i < steps => RowOf(i, rlNextObs[i], rlRewards[i], manualNextObs[i], manualRewards[i]));
    ghost var rl := Episode(Policy(model), rlNoise, numSteps).value;
    ghost var manual := Episode(Manual(manualActions), manualNoise, numSteps).value;
    assert forall i :: 0 <= i < steps ==> rows[i] == Aligned(rl, manual)[i];
    assert rows == Aligned(rl, manual);
    return Ok(rows);
  }

  // ---------------------------------------------------------------------------
  // What the comparison promises

  /**
   * When both runs succeed nothing is cut: both last min(numSteps, 500) steps, and
   * row i is numbered i and holds the observation and reward of step i of each run.
   */
  lemma ComparisonKeepsEveryStep(manualActions: seq<real>, numSteps: int, model: Obs -> int, rlNoise: nat -> real, manualNoise: nat -> real)
    ensures var rl := Episode(Policy(model), rlNoise, numSteps);
            var manual := Episode(Manual(manualActions), manualNoise, numSteps);
            rl.Ok? && manual.Ok? ==>
              var rows := Aligned(rl.value, manual.value);
              |rl.value| == |manual.value| == |rows| == Min(Budget(numSteps), EpisodeLength) &&
              forall i :: 0 <= i < |rows| ==>
                rows[i] == RowOf(i, rl.value[i].obs, rl.value[i].reward, manual.value[i].obs, manual.value[i].reward)
  {
    EpisodeLengthIsBounded(Policy(model), rlNoise, numSteps);
    EpisodeLengthIsBounded(Manual(manualActions), manualNoise, numSteps);
  }

  /** An empty manual list raises the IndexError of index -1 on the first manual step, and only if there is one. */
  lemma EmptyManualListRaises(noise: nat -> real, numSteps: int)
    ensures numSteps > 0 ==> Episode(Manual([]), noise, numSteps) == Err(IndexError(-1))
    ensures numSteps <= 0 ==> Episode(Manual([]), noise, numSteps) == Ok([])
  {
  }

  /** Twenty basis points off an APY already floored at MinApy: one more decrement of the same floored line. */
  lemma FlooredDecrement(a0: real, k: nat)
    ensures MaxReal(MinApy, MaxReal(MinApy, a0 - 0.002 * k as real) - 0.002) == MaxReal(MinApy, a0 - 0.002 * (k + 1) as real)
  {
  }

  /**
   * A manual list of fractional deltas strictly between -1 and 1 (say +0.001 for
   * +10 bp) truncates to action index 0 on every step: the run never raises, and
   * APY falls by 20 bp per step until it is floored at MinApy.
   */
  lemma {:induction false} FractionalManualRun(recs: seq<StepRecord>, s: EnvState, acts: seq<real>, noise: nat -> real, t: nat, remaining: int)
    requires MinApy <= s.apy <= MaxApy
    requires |acts| > 0 && forall j :: 0 <= j < |acts| ==> -1.0 < acts[j] < 1.0
    ensures var r := RunFrom(recs, s, Manual(acts), noise, t, remaining);
            r.Ok? &&
            forall i :: |recs| <= i < |r.value| ==>
              r.value[i].action == 0 && r.value[i].obs.apy == MaxReal(MinApy, s.apy - 0.002 * (i - |recs| + 1) as real)
    decreases remaining
  {
    if remaining > 0 {
      var a := acts[Min(t, |acts| - 1)];
      TruncFraction(a);
      var next := Transition(s, a, noise(t)).value;
      assert next.apy == MaxReal(MinApy, s.apy - 0.002);
      var rec := RecordOf(a, next);
      if !rec.done {
        FractionalManualRun(recs + [rec], next, acts, noise, t + 1, remaining - 1);
        RunStopsAtFirstDone(recs + [rec], next, Manual(acts), noise, t + 1, remaining - 1);
        var r := RunFrom(recs + [rec], next, Manual(acts), noise, t + 1, remaining - 1);
        assert r.value[|recs|] == rec;
        forall i | |recs| + 1 <= i < |r.value|
          ensures r.value[i].obs.apy == MaxReal(MinApy, s.apy - 0.002 * (i - |recs| + 1) as real)
        {
          FlooredDecrement(s.apy, i - |recs|);
        }
      }
    }
  }

  /** From reset, a fractional manual list gives APY 0.05 - 0.002 * (i + 1), floored at MinApy, at step i. */
  lemma FractionalManualEpisode(acts: seq<real>, noise: nat -> real, numSteps: int)
    requires |acts| > 0 && forall j :: 0 <= j < |acts| ==> -1.0 < acts[j] < 1.0
    ensures var r := Episode(Manual(acts), noise, numSteps);
            r.Ok? &&
            forall i :: 0 <= i < |r.value| ==>
              r.value[i].action == 0 && r.value[i].obs.apy == MaxReal(MinApy, 0.05 - 0.002 * (i + 1) as real)
  {
    FractionalManualRun([], Initial(), acts, noise, 0, numSteps);
  }

  /**
   * Against a model that always holds APY (index 2), a manual list of zero or small
   * fractional deltas (such as ten zeros, meant to hold APY too) does not hold it:
   * the table has a row for every step, the model's APY stays at 0.05 on every row,
   * and the manual APY is below it from the first row on, falling to the floor.
   */
  lemma HoldVersusFractional(model: Obs -> int, acts: seq<real>, rlNoise: nat -> real, manualNoise: nat -> real, numSteps: int)
    requires forall o :: model(o) == 2
    requires |acts| > 0 && forall j :: 0 <= j < |acts| ==> -1.0 < acts[j] < 1.0
    ensures var rl := Episode(Policy(model), rlNoise, numSteps);
            var manual := Episode(Manual(acts), manualNoise, numSteps);
            rl.Ok? && manual.Ok? &&
            var rows := Aligned(rl.value, manual.value);
            |rows| == Min(Budget(numSteps), EpisodeLength) &&
            forall i :: 0 <= i < |rows| ==>
              rows[i].rlApy == 0.05 && rows[i].manualApy == MaxReal(MinApy, 0.05 - 0.002 * (i + 1) as real) < 0.05
  {
    NeutralPolicyKeepsApy([], Initial(), model, rlNoise, 0, numSteps);
    FractionalManualEpisode(acts, manualNoise, numSteps);
    ComparisonKeepsEveryStep(acts, numSteps, model, rlNoise, manualNoise);
    var rlRun := Episode(Policy(model), rlNoise, numSteps);
    var manualRun := Episode(Manual(acts), manualNoise, numSteps);
    assert rlRun == RunFrom([], Initial(), Policy(model), rlNoise, 0, numSteps);
    assert rlRun.Ok? && manualRun.Ok?;
    var rl, manual := rlRun.value, manualRun.value;
    var rows := Aligned(rl, manual);
    assert |rl| == |manual| == |rows| == Min(Budget(numSteps), EpisodeLength);
    forall i | 0 <= i < |rows|
      ensures rows[i].rlApy == 0.05
      ensures rows[i].manualApy == MaxReal(MinApy, 0.05 - 0.002 * (i + 1) as real) < 0.05
    {
      assert rows[i] == RowOf(i, rl[i].obs, rl[i].reward, manual[i].obs, manual[i].reward);
      assert 0.05 - 0.002 * (i + 1) as real < 0.05;
    }
  }
}
