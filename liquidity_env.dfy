/**
 * The toy liquidity-pool market: an object holding liquidity, volatility, the
 * offered APY and a step counter, reset to fixed start values and advanced one
 * action at a time.  `Transition` is the same step as a function of the state,
 * and is what the class's `Step` is proved against.
 */
module Env {
  import opened Base

  /** Bounds of the APY the pool may offer. */
  const MinApy: real := 0.02
  const MaxApy: real := 0.25
  /** The neutral APY: above it liquidity flows in, below it flows out. */
  const AnchorApy: real := 0.05
  /** An episode ends once this many steps have run since the last reset. */
  const EpisodeLength: nat := 500

  /** Action index to APY change: -20, -10, 0, +10, +20 basis points. */
  const DeltaMap: map<int, real> := map[0 := -0.002, 1 := -0.001, 2 := 0.0, 3 := 0.001, 4 := 0.002]

  datatype Obs = Obs(liquidity: real, volatility: real, apy: real)

  datatype EnvState = EnvState(liquidity: real, volatility: real, apy: real, stepCount: nat)

  /** What `step` reports besides its (always empty) info dictionary. */
  datatype Outcome = Outcome(obs: Obs, reward: real, terminated: bool, truncated: bool)

  /** The gym info dictionary; this environment always returns it empty. */
  type Info = map<string, real>

  /** Every field within the domain the clamping keeps it in. */
  predicate InRange(s: EnvState)
  {
    0.0 <= s.liquidity <= 1.0 && 0.0 <= s.volatility <= 1.0 && MinApy <= s.apy <= MaxApy
  }

  predicate ObsInRange(o: Obs)
  {
    0.0 <= o.liquidity <= 1.0 && 0.0 <= o.volatility <= 1.0 && MinApy <= o.apy <= MaxApy
  }

  /** The state `reset` starts every episode from. */
  function Initial(): (s: EnvState)
    ensures InRange(s) && s.stepCount == 0
  {
    EnvState(0.5, 0.2, 0.05, 0)
  }

  function ObsOf(s: EnvState): Obs
  {
    Obs(s.liquidity, s.volatility, s.apy)
  }

  /** `np.clip(x, lo, hi)`. */
  function Clip(x: real, lo: real, hi: real): (r: real)
    requires lo <= hi
    ensures lo <= r <= hi
    ensures lo <= x <= hi ==> r == x
    ensures x < lo ==> r == lo
    ensures hi < x ==> r == hi
  {
    if x < lo then lo else if hi < x then hi else x
  }

  /** Python's `int(x)` on a float: truncation toward zero (unlike `x.Floor` for negative x). */
  function Trunc(x: real): int
  {
    if x < 0.0 && x.Floor as real != x then x.Floor + 1 else x.Floor
  }

  /**
   * The reward of a state: liquidity is rewarded, volatility and APY are costs, with
   * the weights a = 1.0, b = 0.5 and c = 0.2 the environment is built with.
   */
  function Reward(s: EnvState): real
  {
    1.0 * s.liquidity - 0.5 * s.volatility - 0.2 * s.apy
  }

  /**
   * One step from `s` under `action` (before `int()`), with `noise` standing for the
   * Gaussian volatility sample.  An action whose truncation is not a key of the delta
   * map fails with the KeyError before anything changes.
   */
  function Transition(s: EnvState, action: real, noise: real): Result<EnvState>
  {
    var index := Trunc(action);
    if index !in DeltaMap then Err(KeyError(index))
    else
      var apy := Clip(s.apy + DeltaMap[index], MinApy, MaxApy);
      var liquidity := Clip(s.liquidity + 0.5 * (apy - AnchorApy), 0.0, 1.0);
      var volatility := Clip(s.volatility - 0.1 * liquidity + noise, 0.0, 1.0);
      Ok(EnvState(liquidity, volatility, apy, s.stepCount + 1))
  }

  /**
   * What `step` reports after reaching state `s`: the observation and reward of the
   * state reached, terminated once 500 steps have run, and never truncated.
   */
  function OutcomeOf(s: EnvState): (out: Outcome)
  {
    Outcome(ObsOf(s), Reward(s), s.stepCount >= EpisodeLength, false)
  }

  class LiquidityEnv {
    var liquidity: real
    var volatility: real
    var currentApy: real
    var stepCount: nat

    function State(): EnvState
      reads this
    {
      EnvState(liquidity, volatility, currentApy, stepCount)
    }

    ghost predicate Valid()
      reads this
    {
      InRange(State())
    }

    /** A new environment is reset on construction. */
    constructor ()
      ensures State() == Initial() && Valid()
    {
      new;
      var _, _ := Reset();
    }

    /** Start a new episode from the fixed start values, whatever the prior state. */
    method Reset() returns (obs: Obs, info: Info)
      modifies this
      ensures liquidity == 0.5 && volatility == 0.2 && currentApy == 0.05 && stepCount == 0
      ensures State() == Initial() && Valid()
      ensures obs == Obs(0.5, 0.2, 0.05) && info == map[]
    {
      liquidity := 0.5;
      volatility := 0.2;
      currentApy := 0.05;
      stepCount := 0;
      obs := Obs(liquidity, volatility, currentApy);
      info := map[];
    }

    /**
     * Apply one action; `noise` is the volatility noise sample of this step.
     * On a KeyError no field has been written.
     */
    method Step(action: real, noise: real) returns (r: Result<Outcome>)
      modifies this
      ensures var t := Transition(old(State()), action, noise);
              if t.Ok? then State() == t.value && r == Ok(OutcomeOf(t.value))
              else State() == old(State()) && r == Err(t.error)
      ensures r.Ok? <==> 0 <= Trunc(action) < 5
      ensures r.Ok? ==> Valid() && stepCount == old(stepCount) + 1
      ensures r.Ok? ==> r.value.obs == Obs(liquidity, volatility, currentApy)
      ensures r.Ok? ==> r.value.reward == 1.0 * liquidity - 0.5 * volatility - 0.2 * currentApy
      ensures r.Ok? ==> (r.value.terminated <==> stepCount >= 500) && !r.value.truncated
    {
      var index := Trunc(action);
      if index !in DeltaMap {
        return Err(KeyError(index));
      }
      var deltaApy := DeltaMap[index];

      currentApy := Clip(currentApy + deltaApy, MinApy, MaxApy);

      var anchorApy := AnchorApy;
      var liquidityChange := 0.5 * (currentApy - anchorApy);
      liquidity := Clip(liquidity + liquidityChange, 0.0, 1.0);

      volatility := Clip(volatility - 0.1 * liquidity + noise, 0.0, 1.0);

      var reward := 1.0 * liquidity - 0.5 * volatility - 0.2 * currentApy;

      stepCount := stepCount + 1;
      var terminated := stepCount >= EpisodeLength;
      var truncated := false;

      var obs := Obs(liquidity, volatility, currentApy);
      r := Ok(Outcome(obs, reward, terminated, truncated));
    }
  }

  /**
   * A step fails exactly when the truncated action is not one of the five indices,
   * with the KeyError of that index; otherwise it lands in range and counts one step.
   */
  lemma TransitionContract(s: EnvState, action: real, noise: real)
    ensures var r := Transition(s, action, noise);
            (r.Ok? <==> 0 <= Trunc(action) < 5) &&
            (r.Err? ==> r.error == KeyError(Trunc(action))) &&
            (r.Ok? ==> InRange(r.value) && r.value.stepCount == s.stepCount + 1)
  {
  }

  /** The delta map is keyed exactly by the five action indices and moves APY by (index - 2) * 10 bp. */
  lemma DeltaMapShape(index: int)
    ensures index in DeltaMap <==> 0 <= index < 5
    ensures index in DeltaMap ==> DeltaMap[index] == (index - 2) as real * 0.001
  {
  }

  /** `int(x)` is the integer nearest to x in the direction of zero. */
  lemma TruncTowardZero(x: real)
    ensures 0.0 <= x ==> Trunc(x) as real <= x < Trunc(x) as real + 1.0
    ensures x < 0.0 ==> Trunc(x) as real - 1.0 < x <= Trunc(x) as real
  {
  }

  /** An observation is in range exactly when the state it shows is. */
  lemma ObsInRangeIff(s: EnvState)
    ensures InRange(s) <==> ObsInRange(ObsOf(s))
  {
  }

  /** The reward of any in-range state lies in [-0.55, 0.996]. */
  lemma RewardBounds(s: EnvState)
    requires InRange(s)
    ensures -0.55 <= Reward(s) <= 0.996
  {
  }

  /** `int()` of an integer-valued float gives that integer back. */
  lemma TruncOfInt(n: int)
    ensures Trunc(n as real) == n
  {
  }

  /** Every fractional value strictly between -1 and 1 truncates to index 0, i.e. -20 bp. */
  lemma TruncFraction(x: real)
    requires -1.0 < x < 1.0
    ensures Trunc(x) == 0 && DeltaMap[Trunc(x)] == -0.002
  {
  }

  /** Truncation differs from flooring for negative fractions: int(-0.5) is 0 while floor(-0.5) is -1. */
  lemma TruncIsNotFloor()
    ensures Trunc(-0.5) == 0 && (-0.5).Floor == -1
  {
  }

  /** APY after a successful step: always within [MinApy, MaxApy], whatever it was before. */
  lemma ApyClamped(s: EnvState, action: real, noise: real)
    requires Transition(s, action, noise).Ok?
    ensures MinApy <= Transition(s, action, noise).value.apy <= MaxApy
  {
  }

  /**
   * Direction of the liquidity move: with the new APY above the anchor liquidity does not
   * fall, below it liquidity does not rise, and at the anchor it stays where it was.
   */
  lemma LiquidityDirection(s: EnvState, action: real, noise: real)
    requires Transition(s, action, noise).Ok?
    requires 0.0 <= s.liquidity <= 1.0
    ensures var n := Transition(s, action, noise).value;
            (n.apy > AnchorApy ==> n.liquidity >= s.liquidity) &&
            (n.apy < AnchorApy ==> n.liquidity <= s.liquidity) &&
            (n.apy == AnchorApy ==> n.liquidity == s.liquidity)
  {
  }

  /** The neutral action (index 2) leaves an in-range APY unchanged. */
  lemma NeutralActionKeepsApy(s: EnvState, action: real, noise: real)
    requires MinApy <= s.apy <= MaxApy
    requires Trunc(action) == 2
    ensures Transition(s, action, noise).Ok?
    ensures Transition(s, action, noise).value.apy == s.apy
  {
  }

  /** A larger action index never yields a lower APY from the same state. */
  lemma ApyMonotoneInAction(s: EnvState, a1: real, a2: real, noise: real)
    requires 0 <= Trunc(a1) <= Trunc(a2) < 5
    ensures Transition(s, a1, noise).value.apy <= Transition(s, a2, noise).value.apy
  {
  }

  /** The noise only moves volatility: liquidity, APY and the counter do not depend on it. */
  lemma NoiseOnlyMovesVolatility(s: EnvState, action: real, n1: real, n2: real)
    requires Transition(s, action, n1).Ok?
    ensures var t1, t2 := Transition(s, action, n1).value, Transition(s, action, n2).value;
            t1.liquidity == t2.liquidity && t1.apy == t2.apy && t1.stepCount == t2.stepCount
  {
  }

  /** The worked reward example: liquidity 0.7, volatility 0.1, APY 0.1 give reward 0.63. */
  lemma RewardExample(n: nat)
    ensures Reward(EnvState(0.7, 0.1, 0.1, n)) == 0.63
  {
  }
}
