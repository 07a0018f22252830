/**
 * The shape every episode driver shares: reset, then repeatedly choose an action,
 * step and record, stopping right after the first step that reports done or when
 * the step budget runs out.  `RunFrom` is that loop as a function of what has been
 * recorded so far and of the environment state; the drivers' methods are proved
 * against it.
 */
module Episodes {
  import opened Base
  import opened Env

  /**
   * Where a driver's actions come from: a policy of the current observation (the
   * trained model's deterministic `predict`, or a rule), or a caller's list of
   * actions whose last element is repeated once the list runs out.
   */
  datatype Controller = Policy(choose: Obs -> int) | Manual(actions: seq<real>)

  /** The action given to `step` at loop index `t` when the observation is `obs`. */
  function ActionAt(c: Controller, t: nat, obs: Obs): Result<real>
  {
    match c
    case Policy(p) => Ok(p(obs) as real)
    case Manual(acts) =>
      // acts[min(t, len(acts) - 1)]: index -1 of an empty list raises
      if |acts| == 0 then Err(IndexError(-1)) else Ok(acts[Min(t, |acts| - 1)])
  }

  /** One executed step as a driver sees it: the action index, the observation and reward returned, and `terminated or truncated`. */
  datatype StepRecord = StepRecord(action: int, obs: Obs, reward: real, done: bool)

  function RecordOf(action: real, next: EnvState): StepRecord
  {
    var out := OutcomeOf(next);
    StepRecord(Trunc(action), out.obs, out.reward, out.terminated || out.truncated)
  }

  /**
   * Continue a run that has recorded `recs` and left the environment in state `s`:
   * at most `remaining` more steps (none once it is zero or negative, as with the
   * drivers' `while t < max_steps`), the next one with loop index `t` and noise sample
   * `noise(t)`.  An exception from the action lookup or from `step` aborts the run.
   */
  function RunFrom(recs: seq<StepRecord>, s: EnvState, c: Controller, noise: nat -> real, t: nat, remaining: int): Result<seq<StepRecord>>
    decreases remaining, 0
  {
    if remaining <= 0 then Ok(recs)
    else
      match ActionAt(c, t, ObsOf(s))
      case Err(e) => Err(e)
      case Ok(a) =>
        match Transition(s, a, noise(t))
        case Err(e) => Err(e)
        case Ok(next) => AfterStep(recs, RecordOf(a, next), next, c, noise, t, remaining - 1)
  }

  /**
   * After the step at loop index `t`, recorded as `rec` and reaching `next`: the
   * driver breaks out when that step reported done, and otherwise goes on.
   */
  function AfterStep(recs: seq<StepRecord>, rec: StepRecord, next: EnvState, c: Controller, noise: nat -> real, t: nat, remaining: int): Result<seq<StepRecord>>
    decreases remaining, 1
  {
    if rec.done then Ok(recs + [rec]) else RunFrom(recs + [rec], next, c, noise, t + 1, remaining)
  }

  /** One iteration of a run whose action at loop index `t` is `a`: the step either raises or is recorded and the run goes on from there. */
  lemma RunFromStep(recs: seq<StepRecord>, s: EnvState, c: Controller, noise: nat -> real, t: nat, remaining: int, a: real)
    requires remaining > 0 && ActionAt(c, t, ObsOf(s)) == Ok(a)
    ensures var tr := Transition(s, a, noise(t));
            RunFrom(recs, s, c, noise, t, remaining) ==
              if tr.Ok? then AfterStep(recs, RecordOf(a, tr.value), tr.value, c, noise, t, remaining - 1) else Err(tr.error)
  {
  }

  /** A whole episode: from the reset state with nothing recorded, for the `maxSteps` iterations of `range(maxSteps)`. */
  function Episode(c: Controller, noise: nat -> real, maxSteps: int): Result<seq<StepRecord>>
  {
    RunFrom([], Initial(), c, noise, 0, maxSteps)
  }

  /** The sum of a list of rewards, accumulated front to back as `total += reward` does. */
  function Sum(xs: seq<real>): real
  {
    if xs == [] then 0.0 else Sum(xs[..|xs| - 1]) + xs[|xs| - 1]
  }

  function Rewards(recs: seq<StepRecord>): seq<real>
  {
    seq(|recs|, i requires 0 <= i < |recs| => recs[i].reward)
  }

  function TotalReward(recs: seq<StepRecord>): real
  {
    Sum(Rewards(recs))
  }

  lemma SumAppend(xs: seq<real>, x: real)
    ensures Sum(xs + [x]) == Sum(xs) + x
  {
    assert (xs + [x])[..|xs|] == xs;
  }

  lemma RewardsAppend(recs: seq<StepRecord>, rec: StepRecord)
    ensures Rewards(recs + [rec]) == Rewards(recs) + [rec.reward]
  {
  }

  lemma TotalRewardAppend(recs: seq<StepRecord>, rec: StepRecord)
    ensures TotalReward(recs + [rec]) == TotalReward(recs) + rec.reward
  {
    RewardsAppend(recs, rec);
    SumAppend(Rewards(recs), rec.reward);
  }

  /** The observations the recorded steps returned, in order. */
  function Observations(recs: seq<StepRecord>): seq<Obs>
  {
    seq(|recs|, i requires 0 <= i < |recs| => recs[i].obs)
  }

  lemma ObservationsAppend(recs: seq<StepRecord>, rec: StepRecord)
    ensures Observations(recs + [rec]) == Observations(recs) + [rec.obs]
  {
  }

  /**
   * The state a run from reset that recorded `recs` leaves the environment in: the
   * reset state when nothing ran, otherwise the fields of the last observation with
   * one step counted per record.
   */
  function FinalState(recs: seq<StepRecord>): EnvState
  {
    if recs == [] then Initial()
    else
      var last := recs[|recs| - 1].obs;
      EnvState(last.liquidity, last.volatility, last.apy, |recs|)
  }

  // ---------------------------------------------------------------------------
  // Where the actions come from

  /** A policy is asked about the current observation; a manual list gives its t-th element, then repeats its last one. */
  lemma ActionAtIndex(c: Controller, t: nat, obs: Obs)
    ensures c.Policy? ==> ActionAt(c, t, obs) == Ok(c.choose(obs) as real)
    ensures c.Manual? && t < |c.actions| ==> ActionAt(c, t, obs) == Ok(c.actions[t])
    ensures c.Manual? && 0 < |c.actions| <= t ==> ActionAt(c, t, obs) == Ok(c.actions[|c.actions| - 1])
    ensures c.Manual? && |c.actions| == 0 ==> ActionAt(c, t, obs) == Err(IndexError(-1))
  {
  }

  // ---------------------------------------------------------------------------
  // What every episode driver promises

  /**
   * A run keeps what was recorded before, adds at most `remaining` records (none
   * when `remaining` is not positive), none of which but the last is done, and if it
   * adds fewer than that its last record is done.
   */
  lemma {:induction false} RunStopsAtFirstDone(recs: seq<StepRecord>, s: EnvState, c: Controller, noise: nat -> real, t: nat, remaining: int)
    ensures var r := RunFrom(recs, s, c, noise, t, remaining);
            r.Ok? ==>
              recs <= r.value && |r.value| <= |recs| + Budget(remaining) &&
              (forall i :: |recs| <= i < |r.value| - 1 ==> !r.value[i].done) &&
              (|r.value| < |recs| + Budget(remaining) ==> |r.value| > |recs| && r.value[|r.value| - 1].done)
    decreases remaining
  {
    if remaining > 0 {
      var a := ActionAt(c, t, ObsOf(s));
      if a.Ok? && Transition(s, a.value, noise(t)).Ok? {
        var next := Transition(s, a.value, noise(t)).value;
        var rec := RecordOf(a.value, next);
        if !rec.done {
          RunStopsAtFirstDone(recs + [rec], next, c, noise, t + 1, remaining - 1);
        }
      }
    }
  }

  /** The record of a successful step: in range, rewarded by the state it reached, with a valid action index. */
  ghost predicate WellFormed(rec: StepRecord)
  {
    ObsInRange(rec.obs) &&
    rec.reward == rec.obs.liquidity - 0.5 * rec.obs.volatility - 0.2 * rec.obs.apy &&
    0 <= rec.action < 5
  }

  /**
   * Every record a run adds is well formed: its observation is within range, its
   * reward is that of the observed state, and its action was a valid index (a step
   * with any other index would have raised).
   */
  lemma {:induction false} RunRecordsWellFormed(recs: seq<StepRecord>, s: EnvState, c: Controller, noise: nat -> real, t: nat, remaining: int)
    requires forall i :: 0 <= i < |recs| ==> WellFormed(recs[i])
    ensures var r := RunFrom(recs, s, c, noise, t, remaining);
            r.Ok? ==> forall i :: 0 <= i < |r.value| ==> WellFormed(r.value[i])
    decreases remaining
  {
    if remaining > 0 {
      var a := ActionAt(c, t, ObsOf(s));
      if a.Ok? && Transition(s, a.value, noise(t)).Ok? {
        var next := Transition(s, a.value, noise(t)).value;
        var rec := RecordOf(a.value, next);
        assert WellFormed(rec);
        if !rec.done {
          RunRecordsWellFormed(recs + [rec], next, c, noise, t + 1, remaining - 1);
        }
      }
    }
  }

  /**
   * Counting from a state that has run `s.stepCount` < 500 steps, an added record is
   * done exactly when it is the 500th step, so a run adds exactly
   * min(remaining, 500 - s.stepCount) records.
   */
  lemma {:induction false} RunStepCount(recs: seq<StepRecord>, s: EnvState, c: Controller, noise: nat -> real, t: nat, remaining: int)
    requires s.stepCount < EpisodeLength
    ensures var r := RunFrom(recs, s, c, noise, t, remaining);
            r.Ok? ==>
              |r.value| == |recs| + Min(Budget(remaining), EpisodeLength - s.stepCount) &&
              forall i :: |recs| <= i < |r.value| ==>
                (r.value[i].done <==> s.stepCount + (i - |recs|) + 1 == EpisodeLength)
    decreases remaining
  {
    if remaining > 0 {
      var a := ActionAt(c, t, ObsOf(s));
      if a.Ok? && Transition(s, a.value, noise(t)).Ok? {
        var next := Transition(s, a.value, noise(t)).value;
        var rec := RecordOf(a.value, next);
        if !rec.done {
          RunStepCount(recs + [rec], next, c, noise, t + 1, remaining - 1);
          RunStopsAtFirstDone(recs + [rec], next, c, noise, t + 1, remaining - 1);
          var r := RunFrom(recs + [rec], next, c, noise, t + 1, remaining - 1);
          if r.Ok? {
            assert r.value[|recs|] == rec;
          }
        }
      }
    }
  }

  /**
   * A successful episode from reset runs exactly min(maxSteps, 500) steps, and only
   * its 500th step (if it gets that far) reports done.
   */
  lemma EpisodeLengthIsBounded(c: Controller, noise: nat -> real, maxSteps: int)
    ensures var r := Episode(c, noise, maxSteps);
            r.Ok? ==>
              |r.value| == Min(Budget(maxSteps), EpisodeLength) &&
              forall i :: 0 <= i < |r.value| ==> (r.value[i].done <==> i == EpisodeLength - 1)
  {
    RunStepCount([], Initial(), c, noise, 0, maxSteps);
  }

  /** An episode stops right after its first done step: only its last record can be done, and a short episode ends on a done record. */
  lemma EpisodeStopsAtFirstDone(c: Controller, noise: nat -> real, maxSteps: int)
    ensures var r := Episode(c, noise, maxSteps);
            r.Ok? ==>
              |r.value| <= Budget(maxSteps) &&
              (forall i :: 0 <= i < |r.value| - 1 ==> !r.value[i].done) &&
              (|r.value| < Budget(maxSteps) ==> |r.value| > 0 && r.value[|r.value| - 1].done)
  {
    RunStopsAtFirstDone([], Initial(), c, noise, 0, maxSteps);
  }

  /**
   * A successful episode leaves the environment in range, with min(maxSteps, 500)
   * steps counted, and showing the observation of the episode's last step.
   */
  lemma EpisodeFinalState(c: Controller, noise: nat -> real, maxSteps: int)
    ensures var r := Episode(c, noise, maxSteps);
            r.Ok? ==>
              var f := FinalState(r.value);
              InRange(f) && f.stepCount == Min(Budget(maxSteps), EpisodeLength) &&
              (|r.value| > 0 ==> ObsOf(f) == r.value[|r.value| - 1].obs)
  {
    EpisodeLengthIsBounded(c, noise, maxSteps);
    EpisodeRecordsWellFormed(c, noise, maxSteps);
  }

  /** Every record of a successful episode is well formed. */
  lemma EpisodeRecordsWellFormed(c: Controller, noise: nat -> real, maxSteps: int)
    ensures var r := Episode(c, noise, maxSteps);
            r.Ok? ==> forall i :: 0 <= i < |r.value| ==> WellFormed(r.value[i])
  {
    RunRecordsWellFormed([], Initial(), c, noise, 0, maxSteps);
  }

  /** A controller whose every action is a valid index never raises, so every run succeeds. */
  lemma {:induction false} RunSucceeds(recs: seq<StepRecord>, s: EnvState, c: Controller, noise: nat -> real, t: nat, remaining: int)
    requires forall u: nat, o: Obs :: ActionAt(c, u, o).Ok? && 0 <= Trunc(ActionAt(c, u, o).value) < 5
    ensures RunFrom(recs, s, c, noise, t, remaining).Ok?
    decreases remaining
  {
    if remaining > 0 {
      var a := ActionAt(c, t, ObsOf(s)).value;
      var next := Transition(s, a, noise(t)).value;
      RunSucceeds(recs + [RecordOf(a, next)], next, c, noise, t + 1, remaining - 1);
    }
  }

  /** A run that fails raised either the IndexError of an empty manual list or the KeyError of an invalid action index. */
  lemma {:induction false} RunFailure(recs: seq<StepRecord>, s: EnvState, c: Controller, noise: nat -> real, t: nat, remaining: int)
    ensures var r := RunFrom(recs, s, c, noise, t, remaining);
            r.Err? ==> r.error == IndexError(-1) || (r.error.KeyError? && !(0 <= r.error.key < 5))
    decreases remaining
  {
    if remaining > 0 {
      var a := ActionAt(c, t, ObsOf(s));
      if a.Ok? && Transition(s, a.value, noise(t)).Ok? {
        var next := Transition(s, a.value, noise(t)).value;
        RunFailure(recs + [RecordOf(a.value, next)], next, c, noise, t + 1, remaining - 1);
      }
    }
  }

  /** A policy that always answers the neutral action keeps an in-range APY where it started on every step. */
  lemma {:induction false} NeutralPolicyKeepsApy(recs: seq<StepRecord>, s: EnvState, p: Obs -> int, noise: nat -> real, t: nat, remaining: int)
    requires MinApy <= s.apy <= MaxApy
    requires forall o :: p(o) == 2
    ensures var r := RunFrom(recs, s, Policy(p), noise, t, remaining);
            r.Ok? && forall i :: |recs| <= i < |r.value| ==> r.value[i].obs.apy == s.apy
    decreases remaining
  {
    if remaining > 0 {
      var a := p(ObsOf(s)) as real;
      NeutralActionKeepsApy(s, a, noise(t));
      var next := Transition(s, a, noise(t)).value;
      var rec := RecordOf(a, next);
      if !rec.done {
        NeutralPolicyKeepsApy(recs + [rec], next, p, noise, t + 1, remaining - 1);
        RunStopsAtFirstDone(recs + [rec], next, Policy(p), noise, t + 1, remaining - 1);
      }
    }
  }
}
