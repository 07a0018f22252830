/** One episode of the trained model on a fresh environment, returned as six parallel columns. */
module EpisodeRunner {
  import opened Base
  import opened Env
  import opened Episodes

  /** The dictionary of lists `run_episode_with_model` returns. */
  datatype EpisodeData = EpisodeData(
    step: seq<int>,
    liquidity: seq<real>,
    volatility: seq<real>,
    apy: seq<real>,
    reward: seq<real>,
    action: seq<int>)

  /** The columns collected over the steps recorded in `recs`, one entry appended to each per step. */
  function ColumnsOf(recs: seq<StepRecord>): EpisodeData
  {
    if recs == [] then EpisodeData([], [], [], [], [], [])
    else
      var d := ColumnsOf(recs[..|recs| - 1]);
      var rec := recs[|recs| - 1];
      EpisodeData(d.step + [|recs| - 1], d.liquidity + [rec.obs.liquidity], d.volatility + [rec.obs.volatility],
                  d.apy + [rec.obs.apy], d.reward + [rec.reward], d.action + [rec.action])
  }

  /** Appending one record appends its entries to every column. */
  lemma ColumnsAppend(recs: seq<StepRecord>, rec: StepRecord)
    ensures var d := ColumnsOf(recs);
            ColumnsOf(recs + [rec]) ==
            EpisodeData(d.step + [|recs|], d.liquidity + [rec.obs.liquidity], d.volatility + [rec.obs.volatility],
                        d.apy + [rec.obs.apy], d.reward + [rec.reward], d.action + [rec.action])
  {
    assert (recs + [rec])[..|recs|] == recs;
  }

  /** All six columns have one entry per step; the step column counts 0, 1, ... and the others hold step i's observation, reward and action index. */
  lemma {:induction false} ColumnsRecordSteps(recs: seq<StepRecord>)
    ensures var d := ColumnsOf(recs);
            |d.step| == |recs| && |d.liquidity| == |recs| && |d.volatility| == |recs| &&
            |d.apy| == |recs| && |d.reward| == |recs| && |d.action| == |recs|
    ensures var d := ColumnsOf(recs);
            forall i :: 0 <= i < |recs| ==>
              d.step[i] == i && d.liquidity[i] == recs[i].obs.liquidity && d.volatility[i] == recs[i].obs.volatility &&
              d.apy[i] == recs[i].obs.apy && d.reward[i] == recs[i].reward && d.action[i] == recs[i].action
  {
    if recs != [] {
      var init := recs[..|recs| - 1];
      ColumnsRecordSteps(init);
      ColumnsAppend(init, recs[|recs| - 1]);
      assert init + [recs[|recs| - 1]] == recs;
    }
  }

  /**
   * Create and reset a new environment, then step it with the model's action at
   * most `maxSteps` times, stopping after the first terminated or truncated step.
   * The environment is private to the call, so the result depends on nothing
   * but the model, the noise and `maxSteps`.
   */
  method RunEpisodeWithModel(model: Obs -> int, noise: nat -> real, maxSteps: int) returns (r: Result<EpisodeData>)
    ensures var ep := Episode(Policy(model), noise, maxSteps);
            if ep.Ok? then r == Ok(ColumnsOf(ep.value)) else r == Err(ep.error)
  {
    var env := new LiquidityEnv();
    var obs, info := env.Reset();

    var steps: seq<int> := [];
    var liquidities: seq<real> := [];
    var volatilities: seq<real> := [];
    var apys: seq<real> := [];
    var rewards: seq<real> := [];
    var actions: seq<int> := [];
    ghost var recs: seq<StepRecord> := [];
    ghost var c := Policy(model);
    ghost var ep := Episode(c, noise, maxSteps);

    var t := 0;
    assert ep == RunFrom(recs, env.State(), c, noise, t, maxSteps - t);
    while t < maxSteps
      invariant 0 <= t && t == |recs|
      invariant obs == ObsOf(env.State())
      invariant EpisodeData(steps, liquidities, volatilities, apys, rewards, actions) == ColumnsOf(recs)
      invariant env.State() == FinalState(recs)
      invariant ep == RunFrom(recs, env.State(), c, noise, t, maxSteps - t)
    {
      var action := model(obs);
      RunFromStep(recs, env.State(), c, noise, t, maxSteps - t, action as real);
      var stepped := env.Step(action as real, noise(t));
      if stepped.Err? {
        return Err(stepped.error);
      }
      var out := stepped.value;
      obs := out.obs;
      ghost var rec := RecordOf(action as real, env.State());
      ColumnsAppend(recs, rec);
      recs := recs + [rec];

      steps := steps + [t];
      liquidities := liquidities + [out.obs.liquidity];
      volatilities := volatilities + [out.obs.volatility];
      apys := apys + [out.obs.apy];
      rewards := rewards + [out.reward];
      actions := actions + [action];

      if out.terminated || out.truncated {
        break;
      }
      t := t + 1;
    }
    return Ok(EpisodeData(steps, liquidities, volatilities, apys, rewards, actions));
  }
}
