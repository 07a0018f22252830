/** Evaluation of the trained model: one episode with per-step histories. */
module EvalPpo {
  import opened Base
  import opened Env
  import opened Episodes

  /** The dictionary `run_single_episode` returns. */
  datatype EvalResult = EvalResult(
    totalReward: real,
    liquidity: seq<real>,
    volatility: seq<real>,
    apy: seq<real>,
    rewards: seq<real>)

  /** The histories accumulated over the steps recorded in `recs`, one step appended at a time. */
  function HistoriesOf(recs: seq<StepRecord>): EvalResult
  {
    if recs == [] then EvalResult(0.0, [], [], [], [])
    else
      var h := HistoriesOf(recs[..|recs| - 1]);
      var rec := recs[|recs| - 1];
      EvalResult(h.totalReward + rec.reward,
                 h.liquidity + [rec.obs.liquidity], h.volatility + [rec.obs.volatility],
                 h.apy + [rec.obs.apy], h.rewards + [rec.reward])
  }

  /** Appending one record extends every history by that step's entry. */
  lemma HistoriesAppend(recs: seq<StepRecord>, rec: StepRecord)
    ensures var h := HistoriesOf(recs);
            HistoriesOf(recs + [rec]) ==
            EvalResult(h.totalReward + rec.reward,
                       h.liquidity + [rec.obs.liquidity], h.volatility + [rec.obs.volatility],
                       h.apy + [rec.obs.apy], h.rewards + [rec.reward])
  {
    assert (recs + [rec])[..|recs|] == recs;
  }

  /**
   * The four histories have one entry per executed step, entry i holding the
   * components of the observation and the reward returned by step i, and the
   * total is the sum of the reward history.
   */
  ghost predicate Summarizes(h: EvalResult, recs: seq<StepRecord>)
  {
    |h.liquidity| == |recs| && |h.volatility| == |recs| && |h.apy| == |recs| && |h.rewards| == |recs| &&
    (forall i :: 0 <= i < |recs| ==>
       h.liquidity[i] == recs[i].obs.liquidity && h.volatility[i] == recs[i].obs.volatility &&
       h.apy[i] == recs[i].obs.apy && h.rewards[i] == recs[i].reward) &&
    h.totalReward == Sum(h.rewards)
  }

  /** What the accumulated histories mean, for any list of records. */
  lemma {:induction false} HistoriesSummarize(recs: seq<StepRecord>)
    ensures Summarizes(HistoriesOf(recs), recs)
    ensures HistoriesOf(recs).totalReward == TotalReward(recs)
  {
    if recs != [] {
      var init, last := recs[..|recs| - 1], recs[|recs| - 1];
      assert recs == init + [last];
      HistoriesSummarize(init);
      HistoriesAppend(init, last);
      var h, h' := HistoriesOf(init), HistoriesOf(recs);
      forall i | 0 <= i < |recs|
        ensures h'.liquidity[i] == recs[i].obs.liquidity && h'.volatility[i] == recs[i].obs.volatility
        ensures h'.apy[i] == recs[i].obs.apy && h'.rewards[i] == recs[i].reward
      {
        if i < |init| {
          assert recs[i] == init[i];
        }
      }
      SumAppend(h.rewards, last.reward);
      TotalRewardAppend(init, last);
    }
  }

  /**
   * Reset `env` (so nothing carries over from an earlier episode on the same
   * object), then step it with the model's action at most `maxSteps` times,
   * stopping after the first terminated or truncated step.
   */
  method RunSingleEpisode(model: Obs -> int, env: LiquidityEnv, noise: nat -> real, maxSteps: int) returns (r: Result<EvalResult>)
    modifies env
    ensures var ep := Episode(Policy(model), noise, maxSteps);
            if ep.Ok? then r == Ok(HistoriesOf(ep.value)) else r == Err(ep.error)
    ensures r.Ok? ==> env.State() == FinalState(Episode(Policy(model), noise, maxSteps).value)
  {
    var obs, info := env.Reset();
    var totalReward := 0.0;
    var liquidityHistory: seq<real> := [];
    var volatilityHistory: seq<real> := [];
    var apyHistory: seq<real> := [];
    var rewardHistory: seq<real> := [];
    ghost var recs: seq<StepRecord> := [];
    ghost var c := Policy(model);
    ghost var ep := Episode(c, noise, maxSteps);
    var step := 0;
    assert ep == RunFrom(recs, env.State(), c, noise, step, maxSteps - step);
    while step < maxSteps
      invariant 0 <= step
      invariant obs == ObsOf(env.State())
      invariant totalReward == HistoriesOf(recs).totalReward && liquidityHistory == HistoriesOf(recs).liquidity
      invariant volatilityHistory == HistoriesOf(recs).volatility && apyHistory == HistoriesOf(recs).apy
      invariant rewardHistory == HistoriesOf(recs).rewards
      invariant env.State() == FinalState(recs)
      invariant ep == RunFrom(recs, env.State(), c, noise, step, maxSteps - step)
    {
      var action := model(obs);
      RunFromStep(recs, env.State(), c, noise, step, maxSteps - step, action as real);
      var stepped := env.Step(action as real, noise(step));
      if stepped.Err? {
        return Err(stepped.error);
      }
      var out := stepped.value;
      obs := out.obs;
      ghost var rec := RecordOf(action as real, env.State());
      HistoriesAppend(recs, rec);
      recs := recs + [rec];

      totalReward := totalReward + out.reward;
      liquidityHistory := liquidityHistory + [out.obs.liquidity];
      volatilityHistory := volatilityHistory + [out.obs.volatility];
      apyHistory := apyHistory + [out.obs.apy];
      rewardHistory := rewardHistory + [out.reward];

      if out.terminated || out.truncated {
        break;
      }
      step := step + 1;
    }
    return Ok(EvalResult(totalReward, liquidityHistory, volatilityHistory, apyHistory, rewardHistory));
  }
}
