/**
 * Total episode reward under the trained model and under a fixed threshold rule,
 * each driven on a caller's environment that the driver resets first.
 */
module ComparePolicies {
  import opened Base
  import opened Env
  import opened Episodes

  /**
   * The baseline controller: raise APY strongly when liquidity is low, lower it a
   * little when liquidity is high, leave it alone in between.
   */
  function RuleBasedPolicy(obs: Obs): (action: int)
    ensures action == 4 <==> obs.liquidity < 0.4
    ensures action == 1 <==> obs.liquidity > 0.6
    ensures action == 2 <==> 0.4 <= obs.liquidity <= 0.6
    ensures action in DeltaMap
    ensures obs.liquidity < 0.4 ==> DeltaMap[action] > 0.0
    ensures obs.liquidity > 0.6 ==> DeltaMap[action] < 0.0
  {
    var liquidity := obs.liquidity;
    if liquidity < 0.4 then 4       // +20 bp
    else if liquidity > 0.6 then 1  // -10 bp
    else 2                          // 0 bp
  }

  /** The rule never picks an index outside the delta map, so its episodes never raise. */
  lemma RuleEpisodeSucceeds(noise: nat -> real, maxSteps: int)
    ensures Episode(Policy(RuleBasedPolicy), noise, maxSteps).Ok?
  {
    forall u: nat, o: Obs
      ensures ActionAt(Policy(RuleBasedPolicy), u, o).Ok? && 0 <= Trunc(ActionAt(Policy(RuleBasedPolicy), u, o).value) < 5
    {
      TruncOfInt(RuleBasedPolicy(o));
    }
    RunSucceeds([], Initial(), Policy(RuleBasedPolicy), noise, 0, maxSteps);
  }

  /**
   * Reset `env`, then step it with the model's action at most `maxSteps` times,
   * stopping after the first terminated or truncated step; the result is the sum
   * of the rewards of the executed steps.
   */
  method RunEpisodeWithModel(model: Obs -> int, env: LiquidityEnv, noise: nat -> real, maxSteps: int) returns (r: Result<real>)
    modifies env
    ensures var ep := Episode(Policy(model), noise, maxSteps);
            if ep.Ok? then r == Ok(TotalReward(ep.value)) else r == Err(ep.error)
    ensures r.Ok? ==> env.State() == FinalState(Episode(Policy(model), noise, maxSteps).value)
  {
    var obs, info := env.Reset();
    var totalReward := 0.0;
    ghost var recs: seq<StepRecord> := [];
    ghost var c := Policy(model);
    ghost var ep := Episode(c, noise, maxSteps);
    var t := 0;
    assert ep == RunFrom(recs, env.State(), c, noise, t, maxSteps - t);
    while t < maxSteps
      invariant 0 <= t
      invariant obs == ObsOf(env.State())
      invariant totalReward == TotalReward(recs)
      invariant env.State() == FinalState(recs)
      invariant ep == RunFrom(recs, env.State(), c, noise, t, maxSteps - t)
    {
      var action := model(obs);
      RunFromStep(recs, env.State(), c, noise, t, maxSteps - t, action as real);
      var stepped := env.Step(action as real, noise(t));
      if stepped.Err? {
        return Err(stepped.error);
      }
      var out := stepped.value;
      ghost var rec := RecordOf(action as real, env.State());
      TotalRewardAppend(recs, rec);
      recs := recs + [rec];
      obs := out.obs;
      totalReward := totalReward + out.reward;
      if out.terminated || out.truncated {
        break;
      }
      t := t + 1;
    }
    return Ok(totalReward);
  }
  /**
   * Reset `env`, then step it with the rule's action at most `maxSteps` times,
   * stopping after the first terminated or truncated step; the rule never raises,
   * and the result is the sum of the rewards of the executed steps.
   */
  method RunEpisodeWithRule(env: LiquidityEnv, noise: nat -> real, maxSteps: int) returns (totalReward: real)
    modifies env
    ensures var ep := Episode(Policy(RuleBasedPolicy), noise, maxSteps);
            ep.Ok? && totalReward == TotalReward(ep.value)
    ensures env.State() == FinalState(Episode(Policy(RuleBasedPolicy), noise, maxSteps).value)
  {
    var obs, info := env.Reset();
    totalReward := 0.0;
    ghost var recs: seq<StepRecord> := [];
    ghost var c := Policy(RuleBasedPolicy);
    ghost var ep := Episode(c, noise, maxSteps);
    var t := 0;
    assert ep == RunFrom(recs, env.State(), c, noise, t, maxSteps - t);
    while t < maxSteps
      invariant 0 <= t
      invariant obs == ObsOf(env.State())
      invariant totalReward == TotalReward(recs)
      invariant env.State() == FinalState(recs)
      invariant ep == RunFrom(recs, env.State(), c, noise, t, maxSteps - t)
    {
      var action := RuleBasedPolicy(obs);
      RunFromStep(recs, env.State(), c, noise, t, maxSteps - t, action as real);
      var stepped := env.Step(action as real, noise(t));
      var out := stepped.value;
      ghost var rec := RecordOf(action as real, env.State());
      TotalRewardAppend(recs, rec);
      recs := recs + [rec];
      obs := out.obs;
      totalReward := totalReward + out.reward;
      if out.terminated || out.truncated {
        break;
      }
      t := t + 1;
    }
  }
}
