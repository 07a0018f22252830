/** One episode of the trained model logged as rows, one per executed step. */
module LogTrajectory {
  import opened Base
  import opened Env
  import opened Episodes

  /** One logged row: the step index, the observation and reward returned by that step, and the action index used. */
  datatype Row = Row(step: int, liquidity: real, volatility: real, apy: real, reward: real, action: int)

  /** The rows logged over the steps recorded in `recs`, one appended per step. */
  function RowsOf(recs: seq<StepRecord>): seq<Row>
  {
    if recs == [] then []
    else
      var rec := recs[|recs| - 1];
      RowsOf(recs[..|recs| - 1]) + [Row(|recs| - 1, rec.obs.liquidity, rec.obs.volatility, rec.obs.apy, rec.reward, rec.action)]
  }

  /** Appending one record appends its row, numbered by how many rows came before. */
  lemma RowsAppend(recs: seq<StepRecord>, rec: StepRecord)
    ensures RowsOf(recs + [rec]) ==
            RowsOf(recs) + [Row(|recs|, rec.obs.liquidity, rec.obs.volatility, rec.obs.apy, rec.reward, rec.action)]
  {
    assert (recs + [rec])[..|recs|] == recs;
  }

  /** One row per step; row i is numbered i and holds the observation, reward and action index of step i. */
  lemma {:induction false} RowsLogSteps(recs: seq<StepRecord>)
    ensures |RowsOf(recs)| == |recs|
    ensures forall i :: 0 <= i < |recs| ==>
              RowsOf(recs)[i] == Row(i, recs[i].obs.liquidity, recs[i].obs.volatility, recs[i].obs.apy, recs[i].reward, recs[i].action)
  {
    if recs != [] {
      var init := recs[..|recs| - 1];
      RowsLogSteps(init);
      RowsAppend(init, recs[|recs| - 1]);
      assert init + [recs[|recs| - 1]] == recs;
    }
  }

  /**
   * Reset `env`, then step it with the model's action while the step counter is
   * below `maxSteps`, appending a row per step and stopping after the first
   * terminated or truncated step.
   */
  method LogSingleEpisode(model: Obs -> int, env: LiquidityEnv, noise: nat -> real, maxSteps: int) returns (r: Result<seq<Row>>)
    modifies env
    ensures var ep := Episode(Policy(model), noise, maxSteps);
            if ep.Ok? then r == Ok(RowsOf(ep.value)) else r == Err(ep.error)
    ensures r.Ok? ==> env.State() == FinalState(Episode(Policy(model), noise, maxSteps).value)
  {
    var obs, info := env.Reset();
    var step := 0;
    var rows: seq<Row> := [];
    ghost var recs: seq<StepRecord> := [];
    ghost var c := Policy(model);
    ghost var ep := Episode(c, noise, maxSteps);
    assert ep == RunFrom(recs, env.State(), c, noise, step, maxSteps - step);
    while step < maxSteps
      invariant 0 <= step && step == |recs|
      invariant obs == ObsOf(env.State())
      invariant rows == RowsOf(recs)
      invariant env.State() == FinalState(recs)
      invariant ep == RunFrom(recs, env.State(), c, noise, step, maxSteps - step)
    {
      var action := model(obs);
      RunFromStep(recs, env.State(), c, noise, step, maxSteps - step, action as real);
      var stepped := env.Step(action as real, noise(step));
      if stepped.Err? {
        return Err(stepped.error);
      }
      var out := stepped.value;
      obs := out.obs;
      ghost var rec := RecordOf(action as real, env.State());
      RowsAppend(recs, rec);
      recs := recs + [rec];

      rows := rows + [Row(step, out.obs.liquidity, out.obs.volatility, out.obs.apy, out.reward, action)];

      step := step + 1;
      if out.terminated || out.truncated {
        break;
      }
    }
    return Ok(rows);
  }
}
